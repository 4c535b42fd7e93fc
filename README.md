# HealthRepublic in Dafny

HealthRepublic lets members pool into collectives, and lets each collective negotiate a per-member-per-month price (PMPM) and an expected medical loss ratio (MLR) with insurance suppliers. This project models the rules behind that platform and proves properties of them. The backend rules come from the FastAPI service under `src/`, and the client rules from the two React front ends.

Modules, one per source file:

- **Negotiations**
  - `NegotiationRouter` (`negotiation_router.dfy`) covers the negotiation lifecycle `open` → `in_progress` → `agreed`. Each negotiation has an append-only list of numbered rounds. The store is a class over the table of negotiations.
  - `Strategy` (`negotiation_strategy.dfy`) is the fair-band rule that accepts, counters or walks away.
- **Pricing**: `GroupPricing` (`group_pricing.dfy`) covers age factors, chronic-condition counts, the clamped collective risk, size-discount tiers, per-supplier variation, and quotes sorted by premium.
- **Dashboards**: `Dashboard` (`supplier_dashboard.dfy`) covers the member headline, the supplier's split into open and closed negotiations with the latest round of each, and the public overview.
- **Collectives**: `CollectiveMatching` (`collective_matching.dfy`) covers integer match scores, recommendations (threshold, sort, limit), and the membership table as a set of (user, collective) pairs.
- **Procedures**
  - `ProcedureImport` (`procedure_import.dfy`) and `PfsHeaderlessImport` (`pfs_headerless_import.dfy`) are the two CSV importers. They cover header detection, code-system and cost parsing, and the upsert loops with their counters, per-run de-duplication and commit cadence.
  - `ProcedureRouter` (`procedure_catalog.dfy`) covers catalogue search, bundle validation and creation, and the bundle cost estimate.
- **Quotes, users and surveys**
  - `SupplierQuotes` (`supplier_quotes.dfy`) covers quote bids, their PMPM ordering and their ranked comparison.
  - `UserRegistration` (`user_registration.dfy`) covers the lookups and the three sign-up endpoints over a user directory with unique emails.
  - `SurveyUpsert` (`survey_upsert.dfy`) keeps one survey response per user, overwritten field by field.
- **Client side**
  - `ApiClient` (`api_client.dfy`) holds the shapes exchanged with the API and the token storage.
  - `SessionStore` and `AuthState` (`session_store.dfy`, `auth_state.dfy`) are the session providers of the two clients.
  - `RoleDispatch` (`role_dispatch.dfy`) is the role-to-view routing.
  - One class per page holds the page's state and handlers: `MemberDashboard`, `NegotiationDetail`, `AdminDashboard`, `AdminUsers`, `CollectivesAdminPage`, `CollectivesAdmin`, `MemberCollectives`, `RegisterPage` and `SupplierRegister`.
- **Shared**
  - `Models` (`models.dfy`) holds the stored entities.
  - `Common` (`common.dfy`) holds options, HTTP errors, trimming, ASCII case mapping, substring search, a sort by key, and JavaScript `Number` conversion and truthiness.

How the model treats the outside world:

- Money is `real`.
- Database queries are sequences or maps given to the operation. A commit is an update of a class field.
- Each network request a page makes is an outcome parameter: success with a value, or failure with a message. Every page keeps a log of the requests it sent and the navigations it made, so the contracts can say what was sent, in what order, and when nothing was.

Behaviour of the source that the model reproduces as written:

- `public_overview` looks for a `members` or `users` relationship on a collective. The model has only `memberships`, so every member count is 0.
- The age-range enum values use an en dash, while the age-factor table uses a hyphen. Only `"65+"` hits the table.
- The backend stores the roles `"Member"` and `"Insurance Supplier"`, but both clients test for `"supplier"`, `"member"` and `"admin"`. A stored supplier therefore gets the member dashboard.
- `MemberCollectivesPage.tsx` reads `collective` from the session, which `AuthContext.tsx` never provides. The page therefore always joins and never leaves.
- The collectives admin page refuses only a signed-in non-admin user. A missing user passes its guard.
- `CollectivesAdmin.tsx` trims the name but not the category.
- `SupplierRegisterPage.tsx` validates the company name but never sends it.
- An empty id in `AdminDashboard.tsx` is sent as 0, and an empty PMPM in `SupplierNegotiationDetail.tsx` is sent as 0.
- Every supplier offer from the client carries `accept: false` (`health-republic-frontend/src/api/client.ts:247-251`). This is the `accept` field of `NegotiationDetail.OfferBody`.

## Model

| member | source | states |
|---|---|---|
| NegotiationRouter.NormalizeMlr | src/negotiations/router.py:26-32 | `None` stays `None`; a value ≤ 1 is kept; a value above 1 is divided by 100 |
| NegotiationRouter.NormalizeMlrFraction | src/negotiations/router.py:26-32 | every MLR up to 100 normalises to a fraction ≤ 1, normalising twice changes nothing, and a percentage above 1 maps above 0.01 |
| NegotiationRouter.LatestIndex | src/negotiations/router.py:324 | the index picked by `sorted(rounds, key=round_number)[-1]`: it has the largest round number and no later round has that number |
| NegotiationRouter.LatestIsLast | src/negotiations/router.py:187-324 | when rounds are numbered 1..n in list order, the latest round is the last one |
| NegotiationRouter.Started | src/negotiations/router.py:63-74 | a started negotiation is "open", has no rounds and no final values, and satisfies the lifecycle invariant |
| NegotiationRouter.NewRound | src/negotiations/router.py:185-265 | the new round is numbered one past the existing rounds, carries the actor's name, the offered PMPM and the normalised MLR |
| NegotiationRouter.ApplyOffer | src/negotiations/router.py:198-282 | one round is appended; an accepted and acceptable offer makes the deal "agreed" with the offered PMPM and normalised MLR; otherwise "open" becomes "in_progress", other statuses and the final fields stay |
| NegotiationRouter.ApplyOfferWellFormed | src/negotiations/router.py:179-214 | an offer on an open or in-progress negotiation keeps the lifecycle invariant (rounds 1..n, "open" iff no rounds, an agreed price was proposed in some round) and leaves it no longer "open" |
| NegotiationRouter.AcceptLatest | src/negotiations/router.py:324-329 | accepting makes the deal "agreed" with the PMPM and MLR of the latest round, whatever the prior status |
| NegotiationRouter.AcceptLatestWellFormed | src/negotiations/router.py:318-329 | accepting keeps the lifecycle invariant, and on a well-formed negotiation the agreed PMPM is the last round's |
| NegotiationRouter.IndexOf | src/negotiations/router.py:35-42 | the position of the first negotiation with the id, or none when no negotiation has it |
| NegotiationRouter.FirstCollectiveOf | src/negotiations/router.py:117-121 | the first membership row of the user gives its collective; none when the user has no membership |
| NegotiationRouter.OfCollective | src/negotiations/router.py:129-134 | exactly the negotiations of the collective, kept in id order |
| NegotiationRouter.ReplaceSameId | src/negotiations/router.py:214-331 | writing a negotiation back under its own id keeps the table in id order and well formed |
| NegotiationRouter.NegotiationStore.Start | src/negotiations/router.py:50-78 | the new negotiation gets the next id, is "open" with no rounds, and is appended to the table |
| NegotiationRouter.NegotiationStore.ListNegotiations | src/negotiations/router.py:81-102 | the lower-cased role "member", "supplier" or "admin" sees every negotiation in id order; any other role, or none, gets 403 |
| NegotiationRouter.NegotiationStore.ListMyNegotiations | src/negotiations/router.py:105-136 | a user with no membership gets 403; otherwise exactly the negotiations of the first membership's collective, in id order |
| NegotiationRouter.NegotiationStore.Get | src/negotiations/router.py:35-151 | found iff some negotiation has the id; otherwise 404 "Negotiation not found" |
| NegotiationRouter.NegotiationStore.MakeOffer | src/negotiations/router.py:177-224 | 404 for an unknown id; 400 "Negotiation is not open (status=…)" with nothing added unless the status is "open" or "in_progress"; otherwise only that negotiation changes, by ApplyOffer, and the response carries the new round and the evaluation |
| NegotiationRouter.NegotiationStore.SupplierOffer | src/negotiations/router.py:159-224 | on an open negotiation the round is by "supplier" and numbered one past the existing rounds; an error changes nothing |
| NegotiationRouter.NegotiationStore.CollectiveCounter | src/negotiations/router.py:227-292 | on an open negotiation the round is by "collective" and numbered one past the existing rounds; an error changes nothing |
| NegotiationRouter.NegotiationStore.AcceptLatestOffer | src/negotiations/router.py:300-333 | 404 for an unknown id; 400 "No rounds exist to accept." with nothing changed when there are no rounds; otherwise only that negotiation becomes AcceptLatest of it |
| Strategy.BandWidth | src/negotiations/strategy.py:38-45 | the band is 0.03 for "low" and 0.08 for "high", compared case-insensitively, and 0.05 for anything else or nothing |
| Strategy.Evaluate | src/negotiations/strategy.py:25-101 | no target or a target ≤ 0 gives an acceptable "accept" with no percent, band or counter; acceptable iff the action is "accept"; a counter is suggested iff the action is "counter"; for a positive target the percent from target is (offer − target) / target, and a counter to an offer at or above the target is 0.6·target + 0.4·offer |
| Strategy.RelativeDistance | src/negotiations/strategy.py:51-76 | for a positive target the relative distance test equals the absolute test |abs(offer − target)| ≤ k·target |
| Strategy.ActionByDistance | src/negotiations/strategy.py:47-93 | the band is [target·(1−band), target·(1+band)]; "accept" iff the offer is inside it; "counter" iff it is outside but within two band widths; "walk_away" beyond |
| Strategy.CounterBelowTargetIsOffer | src/negotiations/strategy.py:82-90 | for an offer below target the suggested counter is the offer itself |
| Strategy.CounterBetweenTargetAndOffer | src/negotiations/strategy.py:79-90 | a counter never exceeds an offer below target, and lies strictly between target and offer when the offer is above target |
| Strategy.TargetOfferAccepted | src/negotiations/strategy.py:59-70 | an offer equal to a positive target is always acceptable |
| GroupPricing.AgeFactor | src/negotiations/services.py:14-26 | a missing or empty range gives 1.0; every factor lies in [0.8, 1.6] |
| GroupPricing.EnDashRangeNeutral | src/negotiations/services.py:17-26 | an en-dashed "dd–dd" range is not in the hyphenated table, so its factor is the neutral 1.0 |
| GroupPricing.SeniorRangeFactor | src/negotiations/services.py:24 | "65+" gets the factor 1.6 |
| GroupPricing.EnumAgeRangeShapes | src/users/enums.py:20-26 | the first five registration age ranges are en-dashed "dd–dd" strings and the sixth is "65+", so only "65+" hits the pricing table |
| GroupPricing.SplitOn | src/negotiations/services.py:64 | `split(",")` gives one more piece than there are commas, and no piece holds a comma |
| GroupPricing.SplitJoin | src/negotiations/services.py:64 | joining the pieces back with the separator gives the input |
| GroupPricing.ConditionCount | src/negotiations/services.py:61-65 | a missing or empty entry counts 0; otherwise at most one condition per comma-separated piece |
| GroupPricing.SingleConditionCount | src/negotiations/services.py:63-65 | a comma-free entry counts one condition unless it is blank after stripping |
| GroupPricing.SumAgeFactors | src/negotiations/services.py:57-58 | the sum of the age factors lies between 0.8 and 1.6 per member |
| GroupPricing.RxFactor | src/negotiations/services.py:91-94 | the Rx contribution is at most 0.2, non-negative for a non-negative average, and exactly 0.2 from 400 up |
| GroupPricing.CollectiveRisk | src/negotiations/services.py:50-99 | an empty collective gives (0, 1.0, None, 0.0); otherwise the member count and Rx average are passed through, the risk is clamped into [0.5, 2.5], and the chronic average is non-negative |
| GroupPricing.RiskFrom | src/negotiations/services.py:56-99 | for a non-empty collective the score is clamped into [0.5, 2.5] and the chronic average is non-negative |
| GroupPricing.RiskFloorUnreached | src/negotiations/services.py:86-97 | with no Rx data or a non-negative Rx average, the risk of a non-empty collective is at least 0.8 |
| GroupPricing.ComputeCollectiveRisk | src/negotiations/services.py:50-99 | the loop over members computes CollectiveRisk |
| GroupPricing.SizeDiscount | src/negotiations/services.py:116-124 | 0.15 from 200 members, 0.10 from 50, 0.05 from 10, and 0 below |
| GroupPricing.SizeDiscountMonotone | src/negotiations/services.py:116-124 | a larger collective never gets a smaller size discount |
| GroupPricing.SupplierVariation | src/negotiations/services.py:135-138 | the variation (id mod 5 − 2)·0.02 lies in [−0.04, 0.04] |
| GroupPricing.EffectiveDiscount | src/negotiations/services.py:140-142 | the discount is clamped into [0, 0.25], and is the plain sum whenever the sum is already inside |
| GroupPricing.DiscountBelowCap | src/negotiations/services.py:117-142 | the upper clamp never binds: the effective discount is at most 0.19 |
| GroupPricing.QuoteFor | src/negotiations/services.py:151-164 | the quote carries the insurer's id and type and the collective's id |
| GroupPricing.QuotePricing | src/negotiations/services.py:111-149 | for a non-negative risk score the base premium is 500 × risk, the final premium never exceeds it, and the quoted saving is positive exactly when the final premium is below the 650 individual-market premium |
| GroupPricing.LargerCollectiveNoDearer | src/negotiations/services.py:116-144 | for one insurer and one risk score, a collective with at least as many members is quoted a premium no higher |
| GroupPricing.QuotePremiumBounds | src/negotiations/services.py:114-144 | with a clamped risk the final premium lies in [250·0.81, 1250] |
| GroupPricing.BidFor | src/negotiations/services.py:168-175 | the stored bid carries the insurer, the collective, the final premium and the discount in percent |
| GroupPricing.QuotesFor | src/negotiations/services.py:134-165 | one quote per insurer, in insurer order |
| GroupPricing.QuotesForInsurers | src/negotiations/services.py:126-165 | every quote is for an insurer and for the given collective |
| GroupPricing.QuoteInsurers | src/negotiations/services.py:132-176 | the loop builds QuotesFor and one BidFor per insurer, in order |
| GroupPricing.SimulateInsurerBids | src/negotiations/services.py:102-191 | the response echoes the collective and its risk summary; one bid per insurer; the quotes are a permutation of the insurers' quotes, sorted by final premium, each for an insurer of this collective |
| Dashboard.FindCollective | src/dashboard/router.py:36-40 | the first collective row with the id, or none when no row has it |
| Dashboard.MyDashboardOf | src/dashboard/router.py:22-61 | the user block echoes the user; the headline is "Welcome back, " with the full name, or the email when the name is empty; a collective is shown only for a membership of the user, with a null category, and never when the user has no membership |
| Dashboard.MyDashboardFirstMembership | src/dashboard/router.py:28-46 | when the first membership's collective exists, it is the one shown |
| Dashboard.OfSupplier | src/dashboard/router.py:151-158 | exactly the negotiations whose supplier is the caller, keeping the updated-at descending order |
| Dashboard.Summarize | src/dashboard/router.py:166-191 | an entry copies the negotiation's fields; the last-round fields are all empty iff there are no rounds |
| Dashboard.SummaryFromLatestRound | src/dashboard/router.py:167-172 | the last-round fields come from a round with the largest round number (the last listed among equals) |
| Dashboard.SummaryOfWellFormed | src/dashboard/router.py:167-172 | for rounds numbered 1..n the entry reports the last round |
| Dashboard.Items | src/dashboard/router.py:160-196 | the open list (statuses "open" and "in_progress") or the closed list (every other status), in input order, never longer than the input |
| Dashboard.ItemsSound | src/dashboard/router.py:193-196 | every entry of a list summarises a listed negotiation and has that list's kind of status |
| Dashboard.ItemsComplete | src/dashboard/router.py:193-196 | every negotiation with a list's kind of status is in that list |
| Dashboard.ItemsPartition | src/dashboard/router.py:160-196 | the two lists together hold exactly as many entries as there are negotiations |
| Dashboard.ItemsKeepOrder | src/dashboard/router.py:156-196 | each list keeps the most-recently-updated-first order |
| Dashboard.SupplierNegotiationDashboard | src/dashboard/router.py:140-203 | the loop builds the open and closed lists of the caller's negotiations, with the caller's id and email |
| Dashboard.SupplierDashboardCorrect | src/dashboard/router.py:140-203 | only the caller's negotiations are listed, each list in the query's order, and together they hold every one of them |
| Dashboard.CountRole | src/dashboard/router.py:261-275 | a role total never exceeds the number of users |
| Dashboard.RoleTotalsBounded | src/dashboard/router.py:261-275 | the three role totals together never exceed the number of users |
| Dashboard.PublicOverviewOf | src/dashboard/router.py:230-282 | one summary per collective with its id and name, no category and a member count of 0; the totals count the users with role "Member", "Insurance Supplier" and "Healthcare Provider" |
| CollectiveMatching.IndustryPoints | src/collectives/services.py:21-24 | 40 exactly when both industries are non-empty and equal ignoring case, 0 otherwise |
| CollectiveMatching.StatePoints | src/collectives/services.py:26-29 | 25 exactly when both states are non-empty and equal ignoring case, 0 otherwise |
| CollectiveMatching.AgeRangePoints | src/collectives/services.py:31-34 | 20 exactly when both age ranges are non-empty and identical, 0 otherwise |
| CollectiveMatching.HouseholdPoints | src/collectives/services.py:36-58 | 0 for an unknown size; +10 iff the size is within every set bound and some bound is set; negative iff a set bound is broken; always in [−10, 10] |
| CollectiveMatching.Score | src/collectives/services.py:10-60 | the score lies in [−10, 95], and is 95 only when every rule awards its full points |
| CollectiveMatching.UntargetedScoresZero | src/collectives/services.py:18-60 | a collective with no targets and no household bounds scores 0 for every user |
| CollectiveMatching.Qualifying | src/collectives/services.py:71-80 | exactly the table's collectives scoring at least the threshold, each with its score |
| CollectiveMatching.Recommend | src/collectives/services.py:63-83 | the result is the qualifying recommendations sorted by descending score, cut to `limit` with Python slice semantics |
| CollectiveMatching.RecommendCorrect | src/collectives/services.py:69-83 | every recommendation is a table collective scoring at least the threshold; scores never increase along the list; at most `limit` entries; with room enough, every qualifying collective is there |
| CollectiveMatching.Joined | src/collectives/services.py:86-118 | after a join of an existing collective the pair is a membership, and no other membership changes |
| CollectiveMatching.Left | src/collectives/services.py:121-135 | after a leave the pair is gone and every other membership stays |
| CollectiveMatching.JoinIdempotent | src/collectives/services.py:100-109 | joining twice gives the memberships of joining once |
| CollectiveMatching.LeaveUndoesJoin | src/collectives/services.py:111-135 | leaving right after a join that added the pair restores the memberships |
| CollectiveMatching.MembershipTable.Join | src/collectives/services.py:86-118 | 404 "Collective not found" iff the collective is missing; otherwise the pair is the result; an existing membership is returned with nothing added |
| CollectiveMatching.MembershipTable.Leave | src/collectives/services.py:121-135 | reports true iff the membership existed; it is removed and nothing else changes |
| ProcedureImport.LowerLookup | src/procedures/import_procedures.py:23 | the header found under a lower-case key is one of the headers and lower-cases to the key; none iff no header does |
| ProcedureImport.FirstPresent | src/procedures/import_procedures.py:48-52 | the first candidate present among the headers; no earlier candidate is present; none when no candidate is |
| ProcedureImport.Pick | src/procedures/import_procedures.py:48-52 | the picked header is one of the headers and lower-cases to a candidate; none iff no header matches any candidate |
| ProcedureImport.PickPriority | src/procedures/import_procedures.py:23-56 | matching ignores case and the present candidate of highest priority wins |
| ProcedureImport.DetectFields | src/procedures/import_procedures.py:13-64 | the ValueError happens iff the code or the description column is missing; otherwise both chosen headers are present and match their candidate lists, and the reference column may be missing |
| ProcedureImport.Without | src/procedures/import_procedures.py:74 | `replace(c, "")` keeps only characters of the input other than `c`, and changes nothing when `c` is absent |
| ProcedureImport.CleanCost | src/procedures/import_procedures.py:70-74 | the text given to `float()` holds no "$" and no "," |
| ProcedureImport.ParseReferenceCost | src/procedures/import_procedures.py:67-78 | `None` and blank input give `None`; otherwise the result is the parse of the cleaned text, `None` when it does not parse |
| ProcedureImport.CleanCostOfPlainNumber | src/procedures/import_procedures.py:70-76 | a bare number with no surrounding space, "$" or "," reaches `float()` unchanged |
| ProcedureImport.DeriveCodeSystem | src/procedures/import_procedures.py:81-85 | "cpt" exactly when the trimmed code is five digits, "hcpcs" otherwise |
| ProcedureImport.Upsert | src/procedures/import_procedures.py:117-137 | after an upsert the table holds the old codes plus the line's code |
| ProcedureImport.UpsertEffect | src/procedures/import_procedures.py:117-210 | only the line's code changes; an existing row keeps its description when the new one is empty and its cost when none was parsed; a new row defaults to "Procedure <code>"; the code system is derived afresh |
| ProcedureImport.UpsertSize | src/procedures/import_procedures.py:123-137 | an insert grows the table by one row, an update leaves its size |
| ProcedureImport.Field | src/procedures/import_procedures.py:106-108 | a column name absent from the header reads as missing |
| ProcedureImport.HeaderLine | src/procedures/import_procedures.py:107-115 | a row contributes nothing iff its trimmed code is blank; otherwise the line has the trimmed code and description, and no cost when there is no reference column |
| ProcedureImport.HeaderlessLine | src/procedures/import_procedures.py:169-188 | a row contributes iff it is not blank, has at least 6 columns and a non-blank fourth column; the code is that column trimmed, the description "Procedure <code>", the cost parsed from the sixth column |
| ProcedureImport.ApplyHeaderRows | src/procedures/import_procedures.py:107-137 | the header import never removes a code |
| ProcedureImport.ApplyHeaderlessRows | src/procedures/import_procedures.py:169-210 | the headerless import never removes a code |
| ProcedureImport.HeaderRowStep | src/procedures/import_procedures.py:107-137 | one more row of the header import upserts its line, if it has one, and counts it |
| ProcedureImport.HeaderlessRowStep | src/procedures/import_procedures.py:169-210 | one more headerless row upserts its line, if it has one, and counts it |
| ProcedureImport.CodedHeaderRows | src/procedures/import_procedures.py:108-111 | the number of rows with a code is at most the number of rows |
| ProcedureImport.CodedHeaderlessRows | src/procedures/import_procedures.py:171-181 | the number of accepted headerless rows is at most the number of rows |
| ProcedureImport.UpsertKeyed | src/procedures/import_procedures.py:117-137 | an upsert keeps every row stored under its own code |
| ProcedureImport.HeaderlessKeyed | src/procedures/import_procedures.py:169-210 | the headerless import keeps every row stored under its own code |
| ProcedureImport.HeaderlessDescription | src/procedures/import_procedures.py:184-205 | the code of every accepted headerless row ends in the table with the placeholder description |
| ProcedureImport.HeaderlessOrigin | src/procedures/import_procedures.py:169-210 | every code the headerless import adds comes from one of its accepted rows |
| ProcedureImport.HeaderlessImportRows | src/procedures/import_procedures.py:149-219 | the headerless import adds exactly the codes of its accepted rows, each with the placeholder description, and keeps the table keyed by code |
| ProcedureImport.ProcedureCatalog.UpsertLine | src/procedures/import_procedures.py:117-137 | the table becomes Upsert of the line; it reports an insert iff the code was new, and the table grows by one exactly then |
| ProcedureImport.ProcedureCatalog.ImportLine | src/procedures/import_procedures.py:108-137 | a row with a line is upserted and counted once, as created when it grew the table |
| ProcedureImport.ProcedureCatalog.ImportWithHeader | src/procedures/import_procedures.py:88-146 | fails with nothing changed iff header detection fails; otherwise the table is ApplyHeaderRows, created + updated counts the rows with a code, and created counts the new codes |
| ProcedureImport.ProcedureCatalog.ImportHeaderless | src/procedures/import_procedures.py:149-219 | the table is ApplyHeaderlessRows, created + updated counts the accepted rows, and created counts the new codes |
| ProcedureImport.ProcedureCatalog.ImportFile | src/procedures/import_procedures.py:222-277 | an empty file is an error that changes nothing; a first row naming code and description columns imports the rest with that header; otherwise the whole file, first row included, is imported by position |
| PfsHeaderlessImport.Accepted | src/procedures/import_pfs_headerless_simple.py:73-100 | a row is accepted iff it is not blank, has at least 6 columns and a fourth column whose trimmed code has 3 to 7 characters; its line is the positional one |
| PfsHeaderlessImport.SeenCodes | src/procedures/import_pfs_headerless_simple.py:49-93 | every code remembered in `seen_codes` has 3 to 7 characters |
| PfsHeaderlessImport.ApplyRowsKeys | src/procedures/import_pfs_headerless_simple.py:90-123 | the run adds exactly its distinct accepted codes to the table |
| PfsHeaderlessImport.ApplyRowsDescription | src/procedures/import_pfs_headerless_simple.py:97-121 | every accepted code ends with the description "Procedure <code>" |
| PfsHeaderlessImport.ApplyRowsEffect | src/procedures/import_pfs_headerless_simple.py:63-123 | the run adds exactly its distinct accepted codes, each described as "Procedure <code>" |
| PfsHeaderlessImport.CommitStep | src/procedures/import_pfs_headerless_simple.py:125-127 | after one more used row a batch commit is due exactly when the count is a multiple of 2000 |
| PfsHeaderlessImport.RowStep | src/procedures/import_pfs_headerless_simple.py:63-123 | one more row adds its code to `seen_codes` and upserts its line only when the code is new to the run |
| PfsHeaderlessImport.UseRow | src/procedures/import_pfs_headerless_simple.py:93-127 | a row with a code new to the run is upserted, its code remembered, and the counters kept in step |
| PfsHeaderlessImport.ProcessRow | src/procedures/import_pfs_headerless_simple.py:63-127 | one loop iteration: every row counts towards the total; only a new accepted code is upserted and remembered |
| PfsHeaderlessImport.ImportPfsHeaderless | src/procedures/import_pfs_headerless_simple.py:36-148 | the table is ApplyRows of the file; total_rows counts every row; used_rows is the number of distinct accepted codes; created + updated equals used_rows; created counts the new codes; intermediate commits happen exactly at the positive multiples of 2000 |
| ProcedureRouter.Matching | src/procedures/router.py:32-39 | exactly the rows whose code or description contains the term, ignoring case, in table order |
| ProcedureRouter.MatchingSorted | src/procedures/router.py:34-41 | filtering keeps code order |
| ProcedureRouter.ListProcedures | src/procedures/router.py:22-42 | a limit outside 1..200 is a 422; otherwise at most `limit` rows |
| ProcedureRouter.ListProceduresCorrect | src/procedures/router.py:30-42 | for a table in code order, the listing holds catalogue rows matching a non-empty term, in code order; it is the first `min(limit, hits)` hits |
| ProcedureRouter.GetProcedure | src/procedures/router.py:50-61 | the first row with the code, or 404 "Procedure not found" iff there is none |
| ProcedureRouter.QuantityOrOne | src/procedures/router.py:108-174 | `quantity or 1`: a zero quantity becomes 1, any other is kept |
| ProcedureRouter.TrimmedCodes | src/procedures/router.py:75 | one trimmed code per item, in item order |
| ProcedureRouter.Missing | src/procedures/router.py:84-86 | exactly the codes that are not in the catalogue, in order, never more than the codes |
| ProcedureRouter.NoneMissing | src/procedures/router.py:86-91 | no code is missing iff every code is in the catalogue |
| ProcedureRouter.ValidateBundle | src/procedures/router.py:75-91 | an empty item list is a 400 "Bundle must contain at least one procedure."; otherwise a 400 listing the missing codes, unless every trimmed code is in the catalogue |
| ProcedureRouter.ValidateBundleAccepts | src/procedures/router.py:75-91 | a bundle passes iff it has items and every trimmed code is in the catalogue |
| ProcedureRouter.FindBundle | src/procedures/router.py:160-166 | the first bundle with the id, or none iff no bundle has it |
| ProcedureRouter.EstimateLine | src/procedures/router.py:172-189 | the line total is missing iff the procedure has no cost; otherwise it is cost × (quantity or 1) |
| ProcedureRouter.PricedTotalNonNegative | src/procedures/router.py:169-177 | with non-negative line totals the bundle total is non-negative |
| ProcedureRouter.UnpricedLinesIgnored | src/procedures/router.py:176-177 | lines without a cost add nothing to the total |
| ProcedureRouter.EstimateLineNonNegative | src/procedures/router.py:173-174 | a non-negative cost and quantity give a non-negative line total |
| ProcedureRouter.ResolveItems | src/procedures/router.py:102-110 | one bundle item per input item, pointing at its trimmed code's procedure, with the quantity or 1 |
| ProcedureRouter.BundleStore.CreateBundle | src/procedures/router.py:71-114 | fails exactly as ValidateBundle does, storing nothing; otherwise stores a bundle with the next id, the input's fields, and one item per input item |
| ProcedureRouter.BundleStore.EstimateBundle | src/procedures/router.py:156-197 | 404 "Bundle not found" iff the bundle is missing; otherwise one EstimateLine per item, in order, and the total over the priced lines |
| SupplierQuotes.GetSupplier | src/suppliers/router.py:62-76 | 404 "Supplier not found" iff no supplier has the id; otherwise a supplier with that id |
| SupplierQuotes.OfCollective | src/suppliers/router.py:165-170 | exactly the bids for the collective, never more than the table |
| SupplierQuotes.ListCollectiveQuotesCorrect | src/suppliers/router.py:157-171 | the listing is a permutation of the collective's bids, holds nothing else, and is in ascending PMPM order |
| SupplierQuotes.CompareCollectiveQuotes | src/suppliers/router.py:178-222 | no bids gives the message "No bids found for this collective." and no count; otherwise one entry per listed bid, entry k ranked k + 1, and the count is the number of entries |
| SupplierQuotes.ComparisonRanked | src/suppliers/router.py:203-216 | ranks run 1..n, PMPMs ascend with the rank, every entry is for the collective and is one of its stored bids |
| SupplierQuotes.QuoteBook.CreateQuoteBid | src/suppliers/router.py:89-116 | 404 with nothing stored iff the supplier is unknown; otherwise the stored bid takes the next id, the path's supplier id and the body's other fields |
| SupplierQuotes.NewBidListed | src/suppliers/router.py:109-170 | after a bid the collective's listing gains exactly that bid |
| SupplierQuotes.OfCollectiveAppend | src/suppliers/router.py:165-167 | appending a bid appends it to its own collective's bids and leaves the others' |
| UserRegistration.Except | src/users/router.py:28-33 | the values other than the excluded one, never more than the input |
| UserRegistration.GetLookups | src/users/router.py:19-33 | age ranges, industries and user types are the enumerations; the roles are the role values other than "admin" |
| UserRegistration.LookupRoles | src/users/router.py:28-33 | the lookup roles are "Member", "Insurance Supplier", "Healthcare Provider", in that order |
| UserRegistration.NewUser | src/users/router.py:64-192 | the stored row has the payload's email and profile fields, the decided role and type, and the hash of the password, never the password |
| UserRegistration.SupplierUserType | src/users/router.py:120-125 | a user type from the enumeration is kept; anything else becomes "consumer", the first value |
| UserRegistration.InsertKeepsWellFormed | src/users/router.py:53-76 | adding a user with a new email and the next id keeps emails unique and ids increasing |
| UserRegistration.UserDirectory.Insert | src/users/router.py:64-80 | the new user gets the next id and is appended; the table stays well formed |
| UserRegistration.UserDirectory.RegisterUser | src/users/router.py:43-82 | a body that breaks the `UserCreate` rules of `src/users/schemas.py` is a 422. Those rules are an email that `EmailStr` accepts, a password of 8 to 128 characters, a state of at most 2 characters, and a role and user type from their enumerations. A valid body with a taken email is a 400. Either error stores nothing. Otherwise the stored user is a "Member" of type "consumer", whatever the payload says |
| UserRegistration.UserDirectory.RegisterSupplier | src/users/router.py:92-143 | a `UserCreate` body with an email `EmailStr` refuses, a password outside 8..128 characters, a state longer than 2 or a role or type outside its enumeration is a 422, and a valid one with a taken email is a 400 "Email already registered". Either error stores nothing. Otherwise the stored user is an "Insurance Supplier" with exactly the user type sent: validation makes the fallback to the first type unreachable |
| UserRegistration.UserDirectory.AdminCreateUser | src/users/router.py:153-198 | a `UserCreate` body with an email `EmailStr` refuses, a password outside 8..128 characters, a state longer than 2 or a role or type outside its enumeration is a 422, and a valid one with a taken email is a 400. Either error stores nothing. Otherwise the payload's role and type are stored as sent, so the stored role and type are always values of their enumerations |
| UserRegistration.PublicSignupNeverAdmin | src/users/router.py:74-186 | neither public endpoint stores "admin"; only the admin endpoint passes an "admin" role through |
| UserRegistration.OneUserPerEmail | src/users/router.py:53-62 | in a well-formed table an email identifies one user |
| SurveyUpsert.Overlay | src/surveys/services.py:21-22 | the set fields take the sent values; every other field keeps its value |
| SurveyUpsert.OverlayIdempotent | src/surveys/services.py:21-22 | setting the same fields again changes nothing |
| SurveyUpsert.Upserted | src/surveys/services.py:13-36 | an existing response is overlaid and keeps its id; otherwise one response is created with the next id, the user's id and only the set fields; no other user's response changes |
| SurveyUpsert.UpsertIdempotent | src/surveys/services.py:13-36 | upserting the same data twice stores what upserting it once stores |
| SurveyUpsert.OverlayStep | src/surveys/services.py:21-22 | setting one more field of the request is one more step of the overlay |
| SurveyUpsert.SetFields | src/surveys/services.py:21-22 | the `setattr` loop computes the overlay of the set fields |
| SurveyUpsert.SurveyTable.Upsert | src/surveys/services.py:8-36 | the table and next id become Upserted of the old ones; the result is the user's stored response; one response per user is kept |
| ApiClient.GetItem | health-republic-frontend/src/auth/AuthContext.tsx:33 | `localStorage.getItem` gives the stored string exactly when the key is present, and `null` otherwise |
| ApiClient.ClearTokens | health-republic-frontend/src/auth/AuthContext.tsx:48-49 | removing both tokens leaves neither key stored and keeps every other stored entry unchanged |
| ApiClient.StoreTokens | health-republic-frontend/src/auth/AuthContext.tsx:63-64 | after storing both tokens, reading each key gives the token just stored; every other entry is kept and no other key is added |
| SessionStore.SignIn | health-republic-frontend/src/auth/AuthContext.tsx:58-69 | a sign-in requests the tokens first, stores the access token and then the refresh token, and only then asks for the profile with the new access token |
| SessionStore.AuthProvider.constructor | health-republic-frontend/src/auth/AuthContext.tsx:24-27 | the provider starts with no user and no token, with the profile loading |
| SessionStore.AuthProvider.SignOut | health-republic-frontend/src/auth/AuthContext.tsx:48-51 | both stored tokens are removed, in that order, and the token and user in memory are forgotten; the loading flag is untouched |
| SessionStore.AuthProvider.Hydrate | health-republic-frontend/src/auth/AuthContext.tsx:32-56 | loading always ends. With no or an empty stored access token, nothing else changes. Otherwise the stored token is adopted and the profile is requested with it. A successful answer becomes the user. A failure removes both tokens and clears the token and user. A user is never known without the token that is in storage |
| SessionStore.AuthProvider.Login | health-republic-frontend/src/auth/AuthContext.tsx:58-83 | a failed sign-in throws its error with nothing stored, nothing else changed and loading left on. Otherwise loading ends and both tokens are stored before the profile request. A successful profile sets the user and navigates to `/dashboard`. A failed profile removes both tokens again, clears the session and rethrows |
| SessionStore.AuthProvider.Logout | health-republic-frontend/src/auth/AuthContext.tsx:85-91 | both stored tokens are removed, the token and user are cleared, and the page navigates to `/login` |
| AuthState.AuthProvider.constructor | src/auth/AuthContext.tsx:23-29 | the initial state carries the two tokens read from storage, no user, not loading and no error |
| AuthState.AuthProvider.Init | src/auth/AuthContext.tsx:32-54 | without a non-empty access token nothing happens. Otherwise the profile is requested with that token. Success sets the user, stops loading and keeps storage. Failure resets every field, sets the session-expired message and removes both stored tokens |
| AuthState.AuthProvider.HandleLogin | src/auth/AuthContext.tsx:56-81 | loading always ends. Full success replaces the state with both new tokens, the user and no error. A failed sign-in keeps the old state and storage, with the error's message or "Login failed". A failed profile request stores the new tokens but keeps the old in-memory state, with the error |
| AuthState.AuthProvider.HandleLogout | src/auth/AuthContext.tsx:83-93 | both stored tokens are removed and every state field is reset |
| RoleDispatch.DashboardRouter | health-republic-frontend/src/pages/DashboardRouter.tsx:11-56 | while the profile loads, only the loading text is shown. With no user the router redirects to `/login`. Otherwise the route table is chosen by exact role: `"admin"`, then `"supplier"`, and every other role gets the member table |
| RoleDispatch.AdminPages | health-republic-frontend/src/pages/DashboardRouter.tsx:24-37 | the role `"admin"` reaches the admin dashboard at `/app`, the users page at `admin/users` and the collectives page at `admin/collectives` |
| RoleDispatch.OnlyAdminPages | health-republic-frontend/src/pages/DashboardRouter.tsx:22-55 | no role other than `"admin"` reaches any of the three admin pages, on any path |
| RoleDispatch.SupplierPages | health-republic-frontend/src/pages/DashboardRouter.tsx:40-46 | the role `"supplier"` sees the supplier dashboard at `/app`, and every other path sends it back to `/app` |
| RoleDispatch.OtherRolesAreMembers | health-republic-frontend/src/pages/DashboardRouter.tsx:49-55 | any role that is neither `"admin"` nor `"supplier"` gets the member dashboard at `/app`, and every other path sends it back to `/app` |
| RoleDispatch.AppInner | src/App.tsx:9-36 | loading comes first. A missing or empty token, or a missing user, shows the login page. Otherwise `"supplier"` is exactly the provider view and `"admin"` exactly the admin view; every other role is the member view |
| MemberDashboard.StatsOf | health-republic-frontend/src/pages/MemberDashboard.tsx:32-38 | the total is the number of negotiations loaded, and neither the open count nor the agreed count exceeds it |
| MemberDashboard.StatsBounded | health-republic-frontend/src/pages/MemberDashboard.tsx:33-36 | the open and agreed counts together never exceed the total, because no status is counted in both |
| MemberDashboard.StatsAdditive | health-republic-frontend/src/pages/MemberDashboard.tsx:32-36 | each of the three counts of a concatenated list is the sum of the counts of its two parts |
| MemberDashboard.StatsSingle | health-republic-frontend/src/pages/MemberDashboard.tsx:33-36 | one negotiation counts as open exactly when its status is `"open"` or `"in_progress"`, and as agreed exactly when it is `"agreed"` |
| Common.FilterAppend | health-republic-frontend/src/pages/MemberDashboard.tsx:33-36 | `Array.prototype.filter` keeps order and repeats: filtering a concatenated list is the concatenation of the two filtered parts |
| Common.FilterSingle | health-republic-frontend/src/pages/MemberDashboard.tsx:33-36 | one element is kept exactly when the test accepts it |
| MemberDashboard.Page.constructor | health-republic-frontend/src/pages/MemberDashboard.tsx:10-13 | the page starts with no negotiations, zero counts, loading on, no error, no run started and none cleaned up |
| MemberDashboard.Page.Start | health-republic-frontend/src/pages/MemberDashboard.tsx:15-26 | without a non-empty token, loading stops with "Missing access token" and no run starts. Otherwise a fresh run, not yet cleaned up, clears the error, turns loading on and requests the negotiations with that token; its number is returned. The counts still describe the list shown |
| MemberDashboard.Page.Cleanup | health-republic-frontend/src/pages/MemberDashboard.tsx:49-51 | the cleanup of one run marks that run, and no other, as cancelled; nothing shown changes |
| MemberDashboard.Page.Settle | health-republic-frontend/src/pages/MemberDashboard.tsx:27-47 | the answer to a run that was cleaned up changes nothing, even after later runs started. Otherwise, on success the list is replaced and the counts are recomputed from it. On failure the error's message, or "Failed to load negotiations", is shown. Either way loading ends, and the counts always describe the list shown |
| MemberDashboard.StaleAnswerIgnored | health-republic-frontend/src/pages/MemberDashboard.tsx:15-52 | when the token changes while the first request is in flight, the page ends up showing the second run's list and its counts, whatever the first run's late answer was |
| NegotiationDetail.OfferBody | health-republic-frontend/src/pages/SupplierNegotiationDetail.tsx:65-79 | the PMPM is the field converted as JavaScript `Number` converts it. The MLR is sent exactly when the field is not blank, and is then that field converted. The notes are the trimmed text, left out when empty. `accept` is false |
| NegotiationDetail.BlankPmpmIsZero | health-republic-frontend/src/pages/SupplierNegotiationDetail.tsx:65-70 | an empty PMPM field passes the NaN check, because it converts to 0 |
| NegotiationDetail.DisplayedRoundsOrdered | health-republic-frontend/src/pages/SupplierNegotiationDetail.tsx:99-101 | the rounds shown are a permutation of the loaded rounds, in ascending round number |
| NegotiationDetail.Page.constructor | health-republic-frontend/src/pages/SupplierNegotiationDetail.tsx:12-22 | the page starts with no negotiation, loading on, no error, an empty form, not submitting, no evaluation, no request sent and no effect run started or cleaned up |
| NegotiationDetail.Page.Start | health-republic-frontend/src/pages/SupplierNegotiationDetail.tsx:25-49 | with no token, or an id that is 0 or NaN, the effect does nothing. Otherwise a fresh run, not yet cleaned up, starts loading with that token and id, and its number is returned; nothing shown changes |
| NegotiationDetail.Page.Cleanup | health-republic-frontend/src/pages/SupplierNegotiationDetail.tsx:51-54 | the cleanup of one run marks that run, and no other, as cancelled; nothing shown and no request changes |
| NegotiationDetail.Page.Load | health-republic-frontend/src/pages/SupplierNegotiationDetail.tsx:31-46 | every load, the first or a poll, requests the negotiation with its run's token and id. An answer to a run that was cleaned up is ignored, even after later runs started. Otherwise loading ends; success shows the negotiation and clears the error, and failure shows the message or "Failed to load negotiation". The form and the last evaluation are untouched |
| NegotiationDetail.Page.Submit | health-republic-frontend/src/pages/SupplierNegotiationDetail.tsx:72-97 | the offer is sent. A failed offer shows its message or "Failed to submit offer" and changes nothing else. An accepted offer records its evaluation and reloads the negotiation. A successful reload shows the new negotiation and empties the form; a failed one shows its error and keeps the form. Submitting always ends |
| NegotiationDetail.Page.HandleSubmitOffer | health-republic-frontend/src/pages/SupplierNegotiationDetail.tsx:61-97 | with no token or id nothing changes. A PMPM that converts to NaN shows "Please enter a valid PMPM amount." and sends nothing. Otherwise the first request sent is the offer built from the form. The form is emptied with no error exactly when both the offer and the reload succeed |
| AdminDashboard.OptionalNumber | health-republic-frontend/src/pages/AdminDashboard.tsx:90-94 | an optional numeric field is `null` exactly when it is empty; otherwise it is the field converted with `Number` |
| AdminDashboard.PayloadOf | health-republic-frontend/src/pages/AdminDashboard.tsx:87-97 | both ids are always converted with `Number`. The PMPM, population size and risk appetite are `null` exactly when their field is empty, and the converted field otherwise. The start date and the notes are sent only when not empty |
| AdminDashboard.EmptyIdIsZero | health-republic-frontend/src/pages/AdminDashboard.tsx:88-103 | an empty collective id is not rejected: it is sent as 0 |
| AdminDashboard.Cleared | health-republic-frontend/src/pages/AdminDashboard.tsx:109-116 | after a creation both ids are kept and every other field is emptied |
| AdminDashboard.Page.constructor | health-republic-frontend/src/pages/AdminDashboard.tsx:22-37 | the page starts with an empty form, not creating, with no error and no created negotiation |
| AdminDashboard.Page.Create | health-republic-frontend/src/pages/AdminDashboard.tsx:105-122 | the payload is sent with the token. Success records the created negotiation and clears the form except the ids. Failure keeps the form and shows the message or "Failed to create negotiation". Creating always ends |
| AdminDashboard.Page.CreateWith | health-republic-frontend/src/pages/AdminDashboard.tsx:83-122 | the previous error and negotiation are cleared first. An id that converted to NaN shows the invalid-ids message and sends nothing. Otherwise the payload is sent, with the outcomes of Create. Creating always ends |
| AdminDashboard.Page.HandleCreate | health-republic-frontend/src/pages/AdminDashboard.tsx:76-123 | without a token it shows "Missing access token" and changes nothing else. An id that is not a number sends nothing. Otherwise exactly the payload built from the form is sent. Success records the negotiation and clears the form except the ids; failure shows the error and keeps the form |
| AdminUsers.SetActive | health-republic-frontend/src/pages/AdminUsersPage.tsx:40-42 | the list keeps its length and order. Every user with the id gets the new active flag with its other fields kept, and every other user is unchanged |
| AdminUsers.SetActiveLastWins | health-republic-frontend/src/pages/AdminUsersPage.tsx:36-58 | of two switches of the same id the second one decides. Switching the matching users back to the flag they all had restores the list |
| AdminUsers.FilteredUsers | health-republic-frontend/src/pages/AdminUsersPage.tsx:60-62 | a user is shown exactly when it is in the list and its lower-cased email contains the lower-cased search |
| AdminUsers.FilteredUsersInOrder | health-republic-frontend/src/pages/AdminUsersPage.tsx:60-62 | the search keeps list order and repeats: the result for a concatenation is the concatenation of the results, and one user is kept exactly when its lower-cased email contains the lower-cased search |
| AdminUsers.EmptySearchShowsAll | health-republic-frontend/src/pages/AdminUsersPage.tsx:60-62 | an empty search shows the whole list, in order |
| AdminUsers.Page.constructor | health-republic-frontend/src/pages/AdminUsersPage.tsx:13-16 | the page starts with no users, loading on and no error |
| AdminUsers.Page.Load | health-republic-frontend/src/pages/AdminUsersPage.tsx:18-34 | loading always ends. Without a token it shows "Missing access token" and requests nothing. Otherwise the list is requested with the token; success replaces the list, and failure keeps it and shows the message or "Failed to load users" |
| AdminUsers.Page.HandleSetActive | health-republic-frontend/src/pages/AdminUsersPage.tsx:36-58 | without a token nothing changes. When the server agrees, the flag of the users with that id is switched. When it refuses, the list is kept and the "Failed to deactivate user: " or "Failed to reactivate user: " alert is raised with the message |
| CollectivesAdminPage.PayloadOf | health-republic-frontend/src/pages/CollectivesAdminPage.tsx:97-100 | the name is trimmed. The category is `null` exactly when it is blank, and otherwise it is the trimmed category |
| CollectivesAdminPage.ReplaceById | health-republic-frontend/src/pages/CollectivesAdminPage.tsx:108-110 | the list keeps its length and order; every entry with the edited id becomes the updated collective, and the others are unchanged |
| CollectivesAdminPage.RemoveById | health-republic-frontend/src/pages/CollectivesAdminPage.tsx:130 | a collective stays in the list exactly when it was there and its id is not the deleted one |
| CollectivesAdminPage.RemoveByIdInOrder | health-republic-frontend/src/pages/CollectivesAdminPage.tsx:130 | removal keeps list order and repeats: removing from a concatenation removes from each part, and one entry stays exactly when its id is not the deleted one |
| CollectivesAdminPage.RemoveByIdCount | health-republic-frontend/src/pages/CollectivesAdminPage.tsx:130 | the list shrinks by exactly the number of entries that had the deleted id |
| CollectivesAdminPage.SaveCall | health-republic-frontend/src/pages/CollectivesAdminPage.tsx:97-111 | a create form sends a create with the payload. An edit form that knows its id sends an update of that id. An edit form without an id sends nothing |
| CollectivesAdminPage.Saved | health-republic-frontend/src/pages/CollectivesAdminPage.tsx:103-111 | a created collective is put first in the list, and an updated one replaces the entries with the edited id. An edit without an id leaves the list alone |
| CollectivesAdminPage.Page.constructor | health-republic-frontend/src/pages/CollectivesAdminPage.tsx:18-27 | the page starts with no collectives, no error, an empty create form, not saving and no delete error |
| CollectivesAdminPage.Page.ResetForm | health-republic-frontend/src/pages/CollectivesAdminPage.tsx:71-76 | the form goes back to an empty create form and nothing else changes |
| CollectivesAdminPage.Page.StartEdit | health-republic-frontend/src/pages/CollectivesAdminPage.tsx:78-83 | the form switches to editing the collective's id, with its name and its category (empty when missing) |
| CollectivesAdminPage.Page.HandleSubmit | health-republic-frontend/src/pages/CollectivesAdminPage.tsx:85-119 | without a token nothing changes. A blank name shows "Name is required" and sends nothing. Otherwise the save request goes out. Success puts the answer into the list and resets the form. Failure shows the message or "Failed to save collective" and keeps the list and the form. The form edits exactly when it knows an id |
| CollectivesAdminPage.Page.HandleDelete | health-republic-frontend/src/pages/CollectivesAdminPage.tsx:121-138 | without a token, or when the confirmation is declined, nothing changes. Otherwise the delete is sent. Success removes every entry with the id and resets the form only when it was editing that id. Failure keeps everything and shows the message or "Failed to delete collective" |
| CollectivesAdmin.PayloadOf | health-republic-frontend/src/pages/CollectivesAdmin.tsx:63-67 | the name is trimmed. The category and description are sent as typed, and left out when empty |
| CollectivesAdmin.BlankCategorySent | health-republic-frontend/src/pages/CollectivesAdmin.tsx:65 | a category that is only a space is sent as it was typed, because only the name is trimmed |
| CollectivesAdmin.Page.constructor | health-republic-frontend/src/pages/CollectivesAdmin.tsx:10-18 | the page starts with no collectives, an empty form, not creating and no error |
| CollectivesAdmin.Page.HandleCreate | health-republic-frontend/src/pages/CollectivesAdmin.tsx:50-79 | without a token nothing changes. A blank name shows "Name is required" and sends nothing. Otherwise the payload built from the form is sent. Success puts the new collective first and clears all three fields. Failure keeps the list and form and shows the message or "Failed to create collective" |
| MemberCollectives.Plan | health-republic-frontend/src/pages/MemberCollectivesPage.tsx:45-53 | a leave of the current collective is planned exactly when there is a current collective with a non-zero id that differs from the target. A join of the target is planned exactly when the member is not already in it. Whenever a leave is planned, it is followed by the join |
| MemberCollectives.PlanCases | health-republic-frontend/src/pages/MemberCollectivesPage.tsx:45-53 | nothing is sent exactly when the member is already in the target, and a member with no current collective only joins |
| MemberCollectives.Page.constructor | health-republic-frontend/src/pages/MemberCollectivesPage.tsx:18-19 | the page starts with no error and nothing pending |
| MemberCollectives.Page.HandleChangeCollective | health-republic-frontend/src/pages/MemberCollectivesPage.tsx:36-63 | without a token it shows the sign-in message and sends nothing. Otherwise a failed leave stops before the join, and a failed join stops before the reload; either shows the message or "Failed to change collective". When every planned request succeeds, the page reloads `/dashboard` with no error. The pending id is always cleared |
| RegisterPage.Validate | health-republic-frontend/src/pages/RegisterPage.tsx:47-52 | the form passes exactly when the email and the password are not blank and the confirmation equals the password. Otherwise the first failing check is reported, in the order email, password, confirmation |
| RegisterPage.RequestOf | health-republic-frontend/src/pages/RegisterPage.tsx:66-86 | providers and insurers, and only they, go to the supplier endpoint. Email and password are sent as typed. Name, industry and state are left out when empty. The member endpoint also gets the age range, left out when empty, and the household size |
| RegisterPage.SupplierIgnoresMemberFields | health-republic-frontend/src/pages/RegisterPage.tsx:67-74 | for a provider or insurer, changing the age range or household size does not change the request sent |
| RegisterPage.Page.constructor | health-republic-frontend/src/pages/RegisterPage.tsx:17-32 | the page starts as an empty member form, with no error and not submitting |
| RegisterPage.Page.SetState | health-republic-frontend/src/pages/RegisterPage.tsx:181 | the state field holds what was typed, upper-cased, and nothing else changes |
| RegisterPage.Page.SetHouseholdSize | health-republic-frontend/src/pages/RegisterPage.tsx:203-205 | an emptied household-size field is empty again, and anything else is the typed text converted with `Number` |
| RegisterPage.Page.HandleSubmit | health-republic-frontend/src/pages/RegisterPage.tsx:57-94 | an invalid form shows its first failure and sends nothing. A valid form sends the request built from it and ends submitting. Success then goes to `/login` with no error. Failure shows the message or "Registration failed." The form is never changed |
| SupplierRegister.ValidateForm | health-republic-frontend/src/pages/SupplierRegisterPage.tsx:22-35 | the form passes exactly when the email is not blank and matches the email pattern, the password has at least 8 characters and equals the confirmation, and the company name is not empty. Otherwise the first failing check in source order gives its message |
| SupplierRegister.EmailPattern | health-republic-frontend/src/pages/SupplierRegisterPage.tsx:24 | the email pattern refuses any text without an "@" and accepts "a@b.c" |
| SupplierRegister.RequestOf | health-republic-frontend/src/pages/SupplierRegisterPage.tsx:50-58 | email and password are sent as typed, and the name only when not empty. `industry` carries the chosen supplier type. State, age range and household size are left out |
| SupplierRegister.CompanyNameNotSent | health-republic-frontend/src/pages/SupplierRegisterPage.tsx:32-58 | neither the company name nor the industry field affects the request sent |
| SupplierRegister.Page.constructor | health-republic-frontend/src/pages/SupplierRegisterPage.tsx:10-20 | the form starts empty with the supplier type `insurance_supplier`, no error and not submitting |
| SupplierRegister.Page.HandleSubmit | health-republic-frontend/src/pages/SupplierRegisterPage.tsx:37-67 | an invalid form shows its first failure and sends nothing. A valid form sends the request built from it and ends submitting. Success goes to `/login` with no error. Failure shows the message or "Supplier registration failed". The form is never changed |
| Common.Trim | src/negotiations/services.py:17 | the trimmed text is the input without its leading and trailing white space. It is empty exactly when the input is all white space, and otherwise it starts and ends with a non-space character |
| Common.TrimUntouched | src/procedures/import_procedures.py:70 | text that already starts and ends with a non-space character is left as it is by trimming |
| Common.ToLower | health-republic-frontend/src/pages/AdminUsersPage.tsx:61 | lower-casing keeps the length and maps each character on its own |
| Common.ContainsAt | health-republic-frontend/src/pages/AdminUsersPage.tsx:61 | a text contains another exactly when the other occurs in it at some position |
| Common.SortByKeyCorrect | src/negotiations/services.py:181 | sorting by a key gives a permutation of the input, in non-decreasing key order |
| Common.PyPrefix | src/collectives/services.py:83 | Python's `s[:n]` is a prefix of the list; for a non-negative `n` it has `n` elements, or all of them when the list is shorter |
| Common.JsNumber | health-republic-frontend/src/pages/SupplierNegotiationDetail.tsx:65 | JavaScript's `Number` turns blank text into 0 |

## Left out

- Rounding: `round(...)` in the pricing service and the strategy is not modelled, and neither is IEEE floating point. Every amount is an exact `real`.
- Parsing a numeric literal: Python `float()` and the core of JavaScript `Number` are an opaque `parse` parameter. Only the blank-to-0 rule and NaN are modelled.
- Authentication: password hashing, JWT encoding and decoding, and the `get_current_user` / `require_roles` dependencies are not modelled. The hash is an opaque function parameter, and the caller's user and role are inputs.
- The negotiation message threads and the unused `closed_statuses` set in the negotiations router are not modelled.
- Clocks: `created_at` and `updated_at` timestamps are parameters.
- Sorting: Python's `sort` and JavaScript's `sort` are modelled by a sort by key. The model proves that the result is a permutation in key order, but not that the sort is stable.
- Text: `strip`, `trim`, `lower`, `upper` and `isdigit` are ASCII-only. Unicode white space and case mapping are not modelled, and neither is the UTF-16 length of JavaScript strings.
- The email pattern `\S` is modelled as "not ASCII white space".
- Common.IsSpace: Python's `str.strip()` also removes the separators `\x1c`-`\x1f`, and JavaScript's `trim()` removes Unicode spaces and line terminators. The model strips only the six ASCII white-space characters on both sides, so text made of those other characters is not seen as blank.
- Routing: React Router v6 matches paths case-insensitively by default. The route table is matched exactly, so `/Admin` is not sent to the `/admin` page here.
- SQL: `ilike` is a plain case-insensitive substring test, without `%` and `_` wildcards. Query order is given as input and stated as a precondition where a lemma needs it. Autoflush is assumed, so a session sees its own pending rows.
- FastAPI validation: the 422 answers carry a stand-in detail text, both for a `limit` outside 1..200 and for a registration body that breaks the `UserCreate` rules. Pydantic's per-field error list is not modelled.
- The bundle error for missing codes lists the codes, but not in Python's `repr` quoting.
- Bundle creation: name uniqueness, `IntegrityError` and rollback are not modelled.
- Thin read endpoints are not modelled: `list_procedure_bundles`, `get_procedure_bundle`, `list_supplier_quotes`, `create_supplier` and `list_suppliers`.
- Importers: opening the file, the file-not-found path, `csv.Sniffer` dialect detection, printing and `sys.exit` are left out. Rows are given as sequences of strings.
- Users: the syntax check of `EmailStr` is an opaque `validEmail` parameter; only its verdict (a 422 when it refuses) is modelled. `EmailStr` normalisation is not modelled.
- Surveys: checking field names against the survey columns is not modelled.
- React timing is not modelled: the 10-second polling interval of the negotiation detail page, effect scheduling, re-renders and `console` logging.
- The load effects of `AdminDashboard.tsx`, `CollectivesAdminPage.tsx` and `CollectivesAdmin.tsx` are not modelled, and neither is the lookups fetch of `RegisterPage.tsx`. Their only state is a loading flag and an error text.
- `createCollective` and `updateCollective` in `health-republic-frontend/src/api/client.ts` return no value. The model treats the answer as the saved collective, as the pages assume.
- The admin guards `AdminUsers.AccessDenied` and `CollectivesAdminPage.Forbidden` are stated as predicates, with no lemma about them.
- SupplierQuotes.ListCollectiveQuotesCorrect: states the intended listing. As written, `src/suppliers/models.py` defines no `QuoteBid` (only `Supplier` and `SupplierBid`), so the query on `models.QuoteBid` at `src/suppliers/router.py:166` fails and every such call answers 500.
- SupplierQuotes.CompareCollectiveQuotes: states the intended comparison. As written, it runs the same query on the missing `models.QuoteBid`, so every such call answers 500.
- SupplierQuotes.QuoteBook.CreateQuoteBid: states the intended endpoint. As written, an unknown supplier still gets the 404, but for a known supplier `models.QuoteBid(**data)` at `src/suppliers/router.py:112` fails, so the call answers 500 and nothing is stored. `list_supplier_quotes` (line 140) fails the same way. The model stores a bid in the `QuoteBidOut` shape.
- NegotiationDetail.Page.HandleSubmitOffer: its own contract fixes only the first request sent and when the form is cleared. `NegotiationDetail.Page.Submit` states the rest: the reload request, the evaluation and the error texts.
