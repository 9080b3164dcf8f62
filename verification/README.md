# Verified model of the Amberflo provider

The provider reconciles Kubernetes objects into Amberflo, a remote billing system, and forwards usage
events to it. Amberflo has one-way locks, unique names, items that cannot be changed any more, and
requests whose outcome stays unknown. This project models the parts where that matters and proves what
they guarantee, over every server state, every schedule of failures and every run.

## How the model is built

* **The account** (`Server.dfy`). Meters, product items, item prices and product plans are one value
  of type `State`. Each endpoint is a function on it, with the rules of the repository's own test double:
  unique meter names and labels (also labels that POST rejects although nothing lists them), the one-way
  lockingStatus, deprecated items that accept no change, price names that stay, plans that need their items.
* **Failures** (`Results.dfy`). `AmberfloServer` and its siblings number their requests, and a schedule
  decides the fate of each: delivered, delivered again after a lost response, dropped with an error, or done
  with an error. An error is a timeout after all retries (transient), an ended context (unclassified), or a
  spurious permanent error. The schedule is arbitrary, so a contract holds for every combination.
  A 404 or an empty list is taken to be the server's true answer.
* **Form.** Go code that changes things step by step is a method on a class with those fields. Where the
  code computes a value with a loop, the method is proved equal to a function and the lemmas are about that
  function. Statements over whole runs are lemmas over sequences of states whose steps are what the methods'
  contracts allow.
* Times are integers: seconds in the payloads, nanoseconds on clocks. Prices and quantities are reals.
  SHA-1 is any map to 40 lower-case hex digits; the ULID of an event id and a time is any function, and is
  injective only where a lemma says so.

| file | subject |
|---|---|
| `Naming.dfy`, `Ordering.dfy`, `Results.dfy` | the 50-byte meterApiName, disambiguated labels, byte order and stable sorting, outcomes of calls |
| `Server.dfy`, `Meters.dfy` | the account; create, adopt, replace, retarget, update and delete meters |
| `ProductItems.dfy`, `ProductPlans.dfy`, `PlanOutcomes.dfy` | items and prices of a plan, the plan, and what ensuring it comes to when no request fails |
| `Pricing.dfy`, `Offers.dfy` | the pricing compiler, and the way from an Offer to what is billed |
| `CustomerPlans.dfy`, `Customers.dfy`, `BillingPeriod.dfy` | plan swaps and their timing, customer records and the Stripe link, billing-period calendar arithmetic |
| `Submission.dfy`, `MeterCache.dfy` | usage submission as an at-least-once protocol, and the names events are sent under |
| `Retry.dfy`, `Backoffs.dfy` | the HTTP retry loop and its 64-bit backoff |
| `KubeObjects.dfy`, `AccountFinalizer.dfy`, `MeterFinalizer.dfy`, `EntitlementFinalizer.dfy` | the reconcilers as finalizer state machines, with users acting and requests failing between any two steps |

## Where the code does less than it seems to

Each of these is proved, with the exact condition or a concrete input.

* **Billing period.** `AddDate(0, -1, 0)` normalises 29 to 31 March into March, so the previous month is
  skipped: the period start is the greatest boundary not after now if and only if that does not happen
  (`PeriodStartIsGreatestBoundary`, `RolloverExists`).
* **Backoff.** The capped delay is the ideal one exactly up to attempt 56; from attempt 57 the shift leaves
  nothing of the base delay and the client does not wait at all on its own account (`CappedDelayIsIdeal`).
* **Idempotency key.** A comment in `internal/submission/ingest.go` promises one ULID for one event id. The
  code also puts the event's time into it, so an event published again under its id with a new time is billed
  again (`RepublishedEventIsBilledTwice`). The model follows the code.
* **A refused liveness lookup gives items away.** `rejectLiveForeignProductItem` takes any permanent error
  for "the meter is gone". Foreign items are therefore safe when no lookup is refused, and
  `AdoptOrphanProductItem` states both directions.
* **Items found by id are not checked for liveness.** `ensureProductItem` retargets whatever is stored under
  the meter's own id, so two meters can end up with one item, and the call still reports success
  (`StoreUnsoundPlan`). For two usage items the condition is exact (`TwoItemsExact`): the plan is unsound if and
  only if the earlier meter was handed what is stored, not deprecated, under the later meter's id. For any number
  of them soundness asks that a desired meter's id is free, or taken by an item no other one could be handed.
* **Equal labels on two meters.** An item is created under the service's display name, and a later meter of the
  same label finds that name on a live foreign item. In an account with nothing left over such a plan can never
  be stored (`FreshAccountExact`, both directions).
* **Two usage items on one meter** share a product item, and the price map keeps one of their prices while
  the generator lists both (`GeneratorPairsExact`, both directions). Only the last of them is charged
  (`ChargedExactly`).
* **A leading blank filter dimension** is folded into the next one, and events are priced that no rate of
  the Offer applies to (`BlankDimensionIsFoldedIn`); otherwise never (`MeaningPreservedExactly`).
* **DeleteMeter** fails for good when no meter has the name and several share the label; its failure-free
  outcome is characterised exactly.
* **Swaps can leave a gap.** An old assignment that is already running out is not prolonged
  (`EndingStrayLeavesGap`), and a wanted plan that is held already is kept even if it starts later, say because
  an earlier call had to retry its start (`LateHeldPlanLeavesGap`). `NoGapExactly` is the condition for any
  assignments. An entitlement that cancels its remembered plan on its own first, without a retry, leaves no gap
  before a fresh assignment if and only if both clock readings fall into one second (`PreviousPlanNoGapExactly`).
* **Entitlement deletion** cancels, for one customer only, the resolved Offer's and the annotated plan. Whatever
  else was assigned can be left behind (`VouchedExactly`): a plan whose annotation was lost in a crash before the
  Offer changed (`UnrememberedPlanIsLeftOpen`), and, without any crash, the annotated assignment itself once the
  account reference leads to another uid (`AnnotatedAssignmentExactly`, `ChangedAccountIsLeftOpen`).
* **The ingest cache** is right for every sequence of events if and only if no two definitions have one meterName
  (`CacheReflectsExactly`, `SharedMeterNameForgotten`).
* **Long price ids** of 97 bytes or more leave no room for a label: names collide exactly when the first
  100 bytes agree (`LongIdsCollide`). Api names with spaces can collide too, exactly when one ends in
  " (" and the other (`SpacedNamesCollide`).

## Model

| member | source | states |
|---|---|---|
| Naming.MeterAPIName | internal/amberflo/meter.go:109-116 | at most 50 bytes, short names unchanged, never empty for a nonempty name |
| Naming.MeterAPINameIdempotent | internal/amberflo/meter.go:109-116 | shortening twice is shortening once, so every component may shorten |
| Naming.DisambiguatedLabel | internal/amberflo/meter.go:121-137 | never longer than 100 bytes and never empty, with every slice in range |
| Naming.DisambiguatedLabelsDiffer | internal/amberflo/meter.go:121-137 | distinct space-free api names whose suffix fits never share a label, for every pair of original labels |
| Naming.MeterLabelsDiffer | internal/amberflo/meter.go:121-144 | shortened meter names always leave room, so meters never share a disambiguated label |
| Naming.SpacedNamesCollide | internal/amberflo/meter.go:121-137 | without the space-free proviso, two api names that fit can share a label if and only if one ends in " (" and the other |
| Naming.LongIdsCollide | internal/amberflo/product_plan.go:333-337 | price ids too long for a suffix share a name if and only if their surviving bytes agree |
| Server.AmberfloServer.PostMeter | internal/amberflo/client_test.go:342-418 | creating a meter, with the uniqueness rules and the request's fate |
| Server.AmberfloServer.PutMeter | internal/amberflo/client_test.go:420-498 | updating a meter under the one-way lock |
| Server.AmberfloServer.DeleteMeter | internal/amberflo/client_test.go:500-530 | deleting a meter, which must be deprecated |
| Server.AmberfloServer.PostItem | internal/amberflo/client_test.go:633-674 | creating or replacing a product item; deprecated items are immutable |
| Server.AmberfloServer.PostPrice | internal/amberflo/client_test.go:733-764 | storing a price, whose name is unique and stays |
| Server.AmberfloServer.PostPlan | internal/amberflo/client_test.go:782-818 | storing a plan, all of whose items must exist |
| Server.AmberfloServer.DeletePlan | internal/amberflo/client_test.go:820-847 | deleting a plan, which must be deprecated |
| Meters.GetMeter | internal/amberflo/meter.go:187-214 | the meter with the name, or not found exactly when there is none |
| Meters.GetMeterByLabel | internal/amberflo/meter.go:226-258 | the only meter with the label, not found if none, ambiguous only if there are several |
| Meters.ProductItemNamed | internal/amberflo/meter.go:416-437 | the only item with the name, or none |
| Meters.RejectLiveForeignProductItem | internal/amberflo/meter.go:477-497 | a live foreign item is given up if and only if the lookup was refused |
| Meters.PointProductItemAtMeter | internal/amberflo/meter.go:503-520 | the item alone changes, and only its meter; a deprecated one never |
| Meters.AdoptOrphanProductItem | internal/amberflo/meter.go:399-414 | a failure-free call succeeds if and only if at most one item has the label, and then adopts every leftover that can be adopted; no live foreign item is taken unless a lookup is refused, and then it is |
| Meters.CreateMeterReusingProductItem | internal/amberflo/meter.go:365-394 | success leaves the wanted meter under its unique label and out of billing, its leftover item taken over, and foreign objects kept; a failure-free call succeeds if and only if name and unique label are free and no live foreign or duplicated item holds the label |
| Meters.ReplaceLegacyMeter | internal/amberflo/meter.go:326-359 | success converges from every label collision, only the requested meter or UUID-keyed leftovers are touched, and the failure-free outcome is exact: what holds the label must be absent or replaceable |
| Meters.UpdateMeter | internal/amberflo/meter.go:305-312 | the record ends up as wanted or is untouched, leftovers are adopted, and a failure-free update succeeds if and only if the lock allows it and the label names one item at most |
| Meters.CreateMissingMeter | internal/amberflo/meter.go:274-284 | the POST path converges, whatever held the label; failure-free it succeeds if and only if nothing holds name and label, or what holds them can be replaced |
| Meters.ReconcileFound | internal/amberflo/meter.go:289-313 | an existing meter converges, an acceptable label is never rewritten, nothing is written if nothing differs, and a failure-free call succeeds if and only if the meter can be maintained |
| Meters.EnsureMeter | internal/amberflo/meter.go:263-313 | convergence on every path; from a converged state no meter write, so a repeated call sends none; leftovers adopted, nobody else's meter or item touched; and a failure-free call succeeds if and only if the wanted state is reachable, label collisions included |
| Meters.ConvergedMeans | internal/amberflo/meter.go:671-727 | convergence is exactly one active meter under the shortened name with the wanted type, unit, dimensions, aggregation dimensions and an acceptable label |
| Meters.DeleteMeterRecord | internal/amberflo/meter.go:591-643 | deprecate, then delete: the lock moves forward only, and success means the record is gone |
| Meters.DeleteMeter | internal/amberflo/meter.go:563-588 | success means no meter under the name, and a failure-free attempt succeeds if and only if the stated condition on name and label holds, from any half-deleted state |
| Meters.DeletionResumes | internal/amberflo/meter.go:563-643 | with unique labels that condition survives whatever earlier attempts left behind |
| Meters.ForeignMetersSurvive | internal/amberflo/meter.go:263-394 | over any run of ensures and deletes a meter that is neither requested nor UUID-keyed is unchanged |
| Meters.ForeignItemsSurvive | internal/amberflo/meter.go:477-520 | over any run an item of a live foreign meter keeps pointing at it, provided no lookup is refused |
| Meters.LocksOnlyForward | internal/amberflo/meter.go:542-643 | over any run a meter's lock never moves backward, its name never changes, and ids are not reused |
| ProductItems.ProductItemForMeter | internal/amberflo/meter.go:442-475 | the only item on the meter, or the only one not deprecated; an error exactly when neither exists |
| ProductItems.FindProductItem | internal/amberflo/product_plan.go:472-502 | which item is taken: the own id, else the meter's, else the only namesake, which serves no live foreign meter; and exactly when a failure-free search succeeds |
| ProductItems.ReuseProductItem | internal/amberflo/product_plan.go:503-523 | the found item is retargeted, or an immutable one is passed over for a sibling; and exactly when a failure-free call succeeds |
| ProductItems.CreateProductItem | internal/amberflo/product_plan.go:524-543 | after a create or a same-meter error the answer is the item that holds the meter; a failure-free create succeeds if and only if the server accepts it or one item already holds the meter |
| ProductItems.TakeProductItem | internal/amberflo/product_plan.go:503-543 | a found item is reused, or an immutable one is passed over for a sibling or a new item under a unique name; failure-free with exactly the outcome of EnsuredItem |
| ProductItems.EnsureProductItem | internal/amberflo/product_plan.go:468-544 | the answer names an item on the meter through every branch, edits are confined, a settled item is left alone whatever goes wrong, and the failure-free outcome, success and error, is exactly EnsuredItem |
| ProductItems.EnsuredItemSettles | internal/amberflo/product_plan.go:468-544 | a failure-free outcome is an item on the meter that is settled, after an edit that spares everybody else's items |
| ProductItems.SettledIsEnsured | internal/amberflo/product_plan.go:472-523 | from a settled item the failure-free outcome is that item and no change |
| ProductPlans.EnsureProductItemPrice | internal/amberflo/product_plan.go:546-588 | success stores the price for the item under a name that a repeated call leaves alone, stored names never change, a settled price is left alone whatever goes wrong, and a failure-free call succeeds, with the stated prices, if and only if the stated names are free |
| ProductPlans.EnsureUsageItem | internal/amberflo/product_plan.go:310-346 | a usage item's product item, price and generator agree; what is settled is left alone whatever goes wrong; and exactly when, and with what, a failure-free call succeeds |
| ProductPlans.EnsurePlanItems | internal/amberflo/product_plan.go:300-361 | the loop: every usage item stays placed while later ones are handled, fees and price map are those of all items, and a failure-free pass succeeds if and only if every item is acceptable and each can be ensured in turn |
| ProductPlans.StorePlan | internal/amberflo/product_plan.go:361-399 | the stored plan agrees with the wanted one, the default flag is kept, nothing is posted if they agreed, and a failure-free call succeeds if and only if they agreed or all priced items exist |
| ProductPlans.EnsureProductPlan | internal/amberflo/product_plan.go:284-399 | success is referentially sound and a fixed point at which, whatever goes wrong, nothing changes and no plan is posted; exactly when a failure-free call succeeds; a first call on clear, attainable usage items ends in a sound plan; items of other live meters and other plans are untouched |
| ProductPlans.FirstCallSucceeds | internal/amberflo/product_plan.go:300-361 | usage items that could each be ensured alone, leftovers included, and cannot want one name can all be ensured in one call |
| ProductPlans.EnsurableKept | internal/amberflo/product_plan.go:468-588 | ensuring one usage item leaves every other one ensurable |
| PlanOutcomes.FreshAccountExact | internal/amberflo/product_plan.go:306-316 | with nothing left over, a failure-free call succeeds if and only if no two meters are to get an item of one name |
| PlanOutcomes.PriceNamesDiffer | internal/amberflo/product_plan.go:317-337 | space-free price ids that leave room for a label keep all price names apart, retried names included |
| PlanOutcomes.TwoItemsExact | internal/amberflo/product_plan.go:472-523 | after a failure-free success on two usage items the plan is sound if and only if the first item was not handed what is stored, not deprecated, under the second meter's id |
| PlanOutcomes.StoreUnsoundPlan | internal/amberflo/product_plan.go:284-399 | an account on which the call reports success and the stored plan prices the first meter on the second meter's item |
| ProductPlans.PlanSoundMeans | internal/amberflo/product_plan.go:341-377 | every price-map entry names an existing item on a desired meter and a stored price of that same item with the compiled machine, and the generator holds the same pairs |
| ProductPlans.GeneratorPairsExact | internal/amberflo/product_plan.go:341-346 | generator and price map agree if and only if no two usage items share a meter |
| ProductPlans.GeneratorsEqualEquivalence | internal/amberflo/product_plan.go:671-716 | planGeneratorsEqual is an equivalence |
| ProductPlans.PricesAgreeAsSets | internal/amberflo/product_plan.go:684-714 | with distinct items it compares the generators as sets, both directions |
| ProductPlans.ReorderedPricesAgree | internal/amberflo/product_plan.go:684-714 | in particular any reordering is equal |
| ProductPlans.DeleteProductPlan | internal/amberflo/product_plan.go:405-449 | success means the plan is absent, and a failure-free attempt succeeds if and only if the plan is absent, deprecated, or can be |
| ProductPlans.PlanDeletionResumes | internal/amberflo/product_plan.go:405-449 | whatever earlier attempts left, that condition still holds and the lock has not moved backward |
| Pricing.DesiredTiers | internal/controller/offer_controller.go:316-337 | the tier loop equals its specification, errors included |
| Pricing.DesiredRatesFromPricing | internal/controller/offer_controller.go:299-344 | the rate loop equals its specification, errors included |
| Pricing.LeafFromRate | internal/amberflo/product_plan.go:864-898 | the leaf loop equals its specification |
| Pricing.BuildWirePrice | internal/amberflo/product_plan.go:805-862 | the machine builder equals its specification, sorted matrix included |
| Pricing.MachineAccepts | internal/amberflo/product_plan.go:805-862 | exactly which rate lists become a machine |
| Pricing.StartsNondecreasing | internal/controller/offer_controller.go:316-354 | truncating nonnegative increasing bounds keeps the starts nondecreasing |
| Pricing.CompiledRateCharge | internal/controller/offer_controller.go:316-354 | the charge changes by at most the sum over boundaries of rate step times dropped fraction, and not at all for whole bounds |
| Pricing.CompiledMachineCharge | internal/amberflo/product_plan.go:805-898 | for every event and quantity the machine prices exactly what the Offer prices, at the same charge up to that tolerance |
| Pricing.MeaningPreservedExactly | internal/amberflo/product_plan.go:805-898 | for every compiled rate list, events and charges are preserved if and only if the first rate does not filter on a blank dimension |
| Pricing.PriceGeneratorFromMachine | internal/amberflo/product_plan.go:740-778 | the generator loop equals its specification |
| Pricing.GeneratorMatchesMachine | internal/amberflo/product_plan.go:740-778 | the generator buckets and prices every event as the machine does |
| Pricing.BlankDimensionIsFoldedIn | internal/amberflo/product_plan.go:835-843 | the witness: a concrete Offer whose leading blank dimension is folded into the next |
| Offers.DesiredProductPlan | internal/controller/offer_controller.go:206-235 | the plan's items are the snapshots' one by one, or an error exactly when one cannot be compiled |
| Offers.UsageBilledAsOffered | internal/controller/offer_controller.go:253-297 | end to end: once the plan is ensured, every usage snapshot has its price on its metric's meter as the Offer says, for every event and quantity, and the stored plan charges it unless a later snapshot is on the same meter |
| Offers.ChargedExactly | internal/amberflo/product_plan.go:341-377 | of a settled plan: a usage item's price is in the stored price map if and only if no later usage item is on the same meter |
| Offers.FeesBilledAsOffered | internal/controller/offer_controller.go:279-292 | end to end: every one-time and recurring fee is in the stored plan at its amount |
| CustomerPlans.PostCustomerPlan | internal/amberflo/customer_plan.go:221-234 | only this plan's assignment changes, to the payload, or to one a minute later if the first was rejected as past |
| CustomerPlans.CancelCustomerPlan | internal/amberflo/customer_plan.go:170-219 | success means the plan is not open-ended; an active assignment ends as of this call's own clock reading |
| CustomerPlans.EnsureCustomerPlan | internal/amberflo/customer_plan.go:108-164 | success swaps out every other active plan and leaves the wanted one, in any order of listing; nothing is posted when it is alone already |
| CustomerPlans.OnlyWantedPlanOpenEnded | internal/amberflo/customer_plan.go:65-164 | no other plan is open-ended afterwards, and the wanted one is unless its earlier assignment was already ending |
| CustomerPlans.SwapHasNoGap | internal/amberflo/customer_plan.go:108-234 | every second from the old start on is covered, except between the first end a swap may give the old assignment and the start of the wanted one, which is that of an assignment held already, a fresh one, or a retried fresh one |
| CustomerPlans.NoGapExactly | internal/amberflo/customer_plan.go:65-164 | for any assignments and any requested start, a swap without a retried start is free of gaps if and only if an assignment held already is open-ended and the wanted plan starts no later than the old one did, or than the first end it may get |
| CustomerPlans.SwapOverlapBounded | internal/amberflo/customer_plan.go:108-234 | both plans are billed for at most the time between the clock readings, a minute more if a request was retried |
| CustomerPlans.EndingStrayLeavesGap | internal/amberflo/customer_plan.go:65-70 | the witness: an assignment that ends between the readings leaves a gap |
| CustomerPlans.LateHeldPlanLeavesGap | internal/amberflo/customer_plan.go:108-164 | the other witness: a wanted plan that is held already but starts late leaves a gap |
| Customers.SortedCopy | internal/controller/billingaccount_controller.go:540-558 | the copy loop equals its specification |
| Customers.SortedCopyLists | internal/controller/billingaccount_controller.go:540-558 | that specification is the one strictly ascending listing of the nonempty names |
| Customers.ProjectsFromActiveBindings | internal/controller/billingaccount_controller.go:494-507 | exactly the actively bound projects, strictly ascending |
| Customers.EncodeProjects | internal/amberflo/customer.go:267-286 | the trait's list is the same listing, whatever order the set is walked in |
| Customers.ProjectsTraitCanonical | internal/controller/billingaccount_controller.go:478-537 | the record depends only on the set of active projects |
| Customers.EnsureCustomer | internal/amberflo/customer.go:136-163 | success leaves exactly the wanted record, other customers alone, and a repeated call writes nothing |
| Customers.DisableCustomer | internal/amberflo/customer.go:170-205 | success means absent or disabled; every other trait is kept, the Stripe link included |
| Customers.SyncCustomer | internal/controller/billingaccount_controller.go:201-231 | the Stripe id is attached or preserved, no link is lost, and repeated reconciles write nothing |
| Customers.ExtraTraitsStable | internal/controller/stripe_customer.go:106-138 | preserved Stripe traits are preserved again |
| Customers.SyncKeepsLinks | internal/controller/stripe_customer.go:106-138 | whatever a reconcile may write, no customer loses a Stripe link |
| Customers.StripeLinkNeverLost | internal/controller/stripe_customer.go:119-138 | over any run of reconciles and disables of any accounts, finished or cut short, a Stripe link once made stays |
| Submission.PrepareExact | internal/submission/submission.go:217-302 | discarded means invalid for good, invalid is never sent, and a message that may become valid is kept |
| Submission.Ledger.SubmitUsage | internal/amberflo/ingest.go:48-58 | rows are only appended, never under a used key; success covers the whole batch, an error any part of it |
| Submission.Triage | internal/submission/submission.go:307-334 | records in message order, each at its own message's position; the others acked or nacked |
| Submission.SubmitEach | internal/submission/submission.go:349-386 | the fallback: one request per record, and its outcome decides its own message; killed between two requests it leaves the other messages untouched |
| Submission.SubmitBatch | internal/submission/submission.go:336-395 | each message gets the one disposition its requests justify, or none if the process is killed before |
| Submission.ProcessMessages | internal/submission/submission.go:307-396 | at most one ack or nack per message, and no ack without a reason, wherever the process is killed; exactly one, by the verdict on the record of that very message, if it is not |
| Submission.BatchIsDelivery | internal/submission/submission.go:307-396 | a batch, cut short before any of its requests and with any of its acks lost, is a step of the run-level protocol |
| Submission.AtMostOnce | internal/submission/ingest.go:33-42 | over every run no key is billed twice, and every row comes from an event |
| Submission.NothingLost | internal/submission/submission.go:307-396 | over every run an acked event is billed, invalid for good, or was rejected on its own |
| Submission.ExactlyOnce | internal/submission/submission.go:307-396 | with injective keys an acked valid event that was not rejected has exactly one row, its own |
| Submission.RepublishedEventIsBilledTwice | internal/submission/ingest.go:30-42 | the key depends on the time: the same id with a new time is billed again |
| MeterCache.MeterDefinitionCache.Upsert | internal/submission/meterdefinition_cache.go:75-83 | one changed definition's effect on the entries |
| MeterCache.MeterDefinitionCache.Delete | internal/submission/meterdefinition_cache.go:85-89 | one removed definition's effect on the entries |
| MeterCache.MeterDefinitionCache.Handle | internal/submission/meterdefinition_cache.go:49-68 | the entries are always those of all events handled so far, in order |
| MeterCache.MeterDefinitionCache.GetAPIName | internal/submission/meterdefinition_cache.go:94-99 | after any orderly events a name is known if and only if a live served definition has it, and the answer is that definition's api name |
| MeterCache.CacheReflectsLive | internal/submission/meterdefinition_cache.go:75-99 | after any orderly event sequence the cache is the map computed from the live published and deprecated definitions |
| MeterCache.CacheReflectsExactly | internal/submission/meterdefinition_cache.go:75-99 | for definitions with fixed meterNames, the cache is right after every event sequence if and only if no two of them have one meterName |
| MeterCache.SharedMeterNameForgotten | internal/submission/meterdefinition_cache.go:75-89 | two live definitions with one meterName make the cache forget |
| MeterCache.MeterAPINameIndex | internal/controller/offer_controller.go:237-251 | the Offer index loop equals its specification |
| MeterCache.IndexEntry | internal/controller/offer_controller.go:237-251 | every listed meterName has an entry, and every entry is a listed definition's api name |
| MeterCache.NamesAgree | internal/amberflo/meter.go:267 | cache, Offer index and EnsureMeter use one name, and it fits the limit |
| BillingPeriod.PeriodStartIsGreatestBoundary | internal/controller/stripe_customer.go:263-292 | the period start is the greatest boundary not after now, and now is before the next, if and only if the month does not roll over |
| BillingPeriod.RolloverExists | internal/controller/stripe_customer.go:280-292 | it does roll over on some days of the real calendar |
| BillingPeriod.MonthBackNormalises | internal/controller/stripe_customer.go:286-289 | what AddDate does with a day the previous month lacks |
| BillingPeriod.SwitchTimeIsFuture | internal/controller/stripe_customer.go:243-253 | the switch time is strictly in the future for every skew of a second or more, and exactly when for shorter ones |
| BillingPeriod.SwitchWaitsOnlyAfterRollover | internal/controller/stripe_customer.go:243-253 | when the switch waits for a period start at all |
| BillingPeriod.GregorianIsCalendar | internal/controller/stripe_customer.go:256-272 | the leap-year calendar the results are instantiated with has months of 28 to 31 days, and its January 1970 starts on the epoch day |
| Gregorian.MonthsAdjoin | internal/controller/stripe_customer.go:256-272 | each month of the calendar starts where the one before ends, leap years included |
| Backoffs.CappedDelayIsIdeal | internal/amberflo/client.go:411-418 | the wrapped, checked, capped delay is min(100 ms times 2 to the attempt - 1, 2 s) if and only if the attempt is at most 56, and zero after |
| Backoffs.CappedDelayNondecreasing | internal/amberflo/client.go:411-418 | it does not decrease up to attempt 56 |
| Backoffs.JitterWithinQuarter | internal/amberflo/client.go:276-290 | jitter stays within a quarter |
| Backoffs.BackoffBounds | internal/amberflo/client.go:411-430 | never less than the server's Retry-After (section 10.2.3 of RFC 9110), and bounded |
| Retry.RetriedResponses | internal/amberflo/errors.go:134-194 | exactly which responses are retried and which are accepted |
| Retry.DoJSON | internal/amberflo/client.go:317-407 | stops at the first outcome that is not transient, makes at most the allowed requests, and sleeps only between two transient ones |
| Retry.TransientOnlyAfterAllAttempts | internal/amberflo/client.go:317-407 | a transient error is returned only after exactly all attempts |
| Retry.SleepsHonourServer | internal/amberflo/client.go:317-430 | every sleep honours Retry-After, and their sum is bounded accordingly |
| Retry.OwnWaitIsAdmissible | internal/amberflo/client.go:411-430 | the client's own backoff satisfies what the loop's result assumes of a wait |
| AccountFinalizer.AccountWorld.Reconcile | internal/controller/billingaccount_controller.go:139-231 | a reconcile is a run of allowed steps whatever fails and whatever users do meanwhile; left alone it syncs or lets go |
| AccountFinalizer.AccountWorld.ReconcileDelete | internal/controller/billingaccount_controller.go:313-383 | the disable comes before the release, on every path but force-delete |
| AccountFinalizer.AccountWorld.RemoveFinalizer | internal/controller/billingaccount_controller.go:395-415 | the release, with its fallback in a terminating namespace |
| AccountFinalizer.GoneAccountIsDisabled | internal/controller/billingaccount_controller.go:161-383 | over every run with crashes between any two steps, an account that is gone has an absent or disabled customer, outside force-delete |
| MeterFinalizer.MeterWorld.Reconcile | internal/controller/meterdefinition_controller.go:92-237 | a reconcile is a run of allowed steps; left alone it converges the meter of a live definition and lets a deleted one go |
| MeterFinalizer.MeterWorld.Delete | internal/controller/meterdefinition_controller.go:192-222 | success of the remote deletion means no meter under the api name |
| MeterFinalizer.MeterMatchesDefinition | internal/controller/meterdefinition_controller.go:291-337 | a converged meter has the definition's unit and dimensions and the type its aggregation maps to |
| MeterFinalizer.GoneDefinitionHasNoMeter | internal/controller/meterdefinition_controller.go:115-237 | over every run a definition that is gone has no meter under its api name |
| EntitlementFinalizer.EntitlementWorld.Reconcile | internal/controller/billingentitlement_controller.go:65-196 | a reconcile, previous-plan cancel and annotations included, is a run of allowed steps; left alone it assigns and remembers the plan of a live entitlement and lets a deleted one go |
| EntitlementFinalizer.EntitlementWorld.Move | internal/controller/billingentitlement_controller.go:153-173 | an active previous plan is ended first, at a reading of its own, and the assignment swaps out what that left |
| EntitlementFinalizer.EntitlementWorld.SwapPlan | internal/controller/billingentitlement_controller.go:153-190 | the cancel of the remembered plan, the assignment and the annotations are allowed steps, with users acting in between; left alone, an active remembered plan is first ended at a reading of its own, and the new plan is then assigned and remembered |
| EntitlementFinalizer.EntitlementWorld.ReconcileDelete | internal/controller/billingentitlement_controller.go:198-261 | gone with its ids resolvable means neither the resolved nor the annotated plan of the resolved account is open-ended |
| EntitlementFinalizer.EntitlementWorld.ResolveIds | internal/controller/billingentitlement_controller.go:270-288 | the ids a deletion goes by are ones it has read since the deletion began, an unresolved account leaves both unknown, and left alone they are the references' |
| EntitlementFinalizer.GoneEntitlementIsCancelled | internal/controller/billingentitlement_controller.go:198-261 | over every run, once an entitlement is gone, the resolved account, or the annotated customer where none resolved, has no open-ended assignment to the annotated plan, nor to a resolved Offer |
| EntitlementFinalizer.VouchedExactly | internal/controller/billingentitlement_controller.go:198-261 | exactly what a deletion answers for: every run from nothing that lets the object go on the ids read ends with an assignment closed if and only if it is one of these |
| EntitlementFinalizer.AnnotatedAssignmentExactly | internal/controller/billingentitlement_controller.go:207-229 | the annotated assignment itself is sure to be closed if and only if the account does not resolve or is still the annotated one |
| EntitlementFinalizer.ChangedAccountIsLeftOpen | internal/controller/billingentitlement_controller.go:207-229 | the witness for a changed account: both ids resolve, nothing crashes, and the annotated assignment stays open-ended |
| EntitlementFinalizer.GoneFromItsOwnPlan | internal/controller/billingentitlement_controller.go:198-261 | where the references never change, that is its own account and Offer |
| EntitlementFinalizer.UnrememberedPlanIsLeftOpen | internal/controller/billingentitlement_controller.go:167-187 | the witness for a crash: a plan assigned but not yet annotated outlives the entitlement once the Offer has changed |
| EntitlementFinalizer.PreviousPlanSwapHasNoGap | internal/controller/billingentitlement_controller.go:153-173 | when the remembered plan is cancelled first, a gap can only lie between the first end it may get, no earlier than that of the first reading, and the new start |
| EntitlementFinalizer.SwapInTwoGap | internal/controller/billingentitlement_controller.go:153-173 | for the very swap the reconciler does, a fresh assignment leaves a gap of at most the seconds between the two readings |
| EntitlementFinalizer.PreviousPlanNoGapExactly | internal/controller/billingentitlement_controller.go:153-173 | exactly when there is none: the new assignment is open-ended and starts no later than the old one did or may end; for a fresh, unretried swap, if and only if both clock readings fall into one second |

## Left out

- HTTP transport, JSON, URLs, TLS, secrets, flags, logging, events and metrics: plumbing with no property of its own. A request is a call on the server object with a fate from the schedule.
- Kubernetes client and Server-Side Apply field ownership: an object is a value with a finalizer, annotations and a uid; reads are current and reconciles of one object do not overlap.
- Writers beside the provider: within one call nobody else changes the account. Other definitions' reconciles do appear in the run of `GoneDefinitionHasNoMeter`, other entitlements of the same customer do not.
- Spurious 404 answers and the fallback to the request body when a write's response is empty: an absence that is reported is real.
- Invoices, the webhook and the payment-switch calls: mostly single-branch tables; only the switch time is modelled, and no claim is made that a repeated reconcile finds its switch.
- The Offer reconciler's finalizer: it releases the object after a permanent failure and leaves the plan in place, so it gives no guarantee to prove beyond that of `DeleteProductPlan`.
- NATS client and rate limiter, SHA and ULID internals: deliveries are arbitrary and hash functions uninterpreted.
- Rounding of prices in float64, UTF-8 validity of labels cut at a byte, and conversion of bounds of 2^63 units or more to int64.
- Server.AmberfloServer.PutMeter: does not enforce unique labels on update, because the test double does not; the label condition of DeleteMeter is stated without assuming it.
- CustomerPlans.EnsureCustomerPlan: identifies an assignment by customer and plan, as the test double does; relation ids and several assignments of one customer to one plan are not modelled.
- ProductPlans.EnsureProductPlan: soundness and the fixed point ask for live desired meters, distinct item ids and reserved ids, since an item pointing at a dead or shared meter may be handed on; the exact condition is proved for two usage items, and for more it depends on their order.
- Customers.EncodeProjects: trait values are kept as lists and numbers instead of their JSON and decimal texts.
