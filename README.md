# Photography studio site: quote calculator, plan table and ripple waves

This project models the three pieces of behaviour in the studio's marketing site. Everything else in the site is presentation.

- **Quote calculator** (`QuoteCalculator`, from `components/Pricing.tsx`). It holds the rate table: 50 per photographer-hour, a team of two, 150 photos included, 2 per extra photo, web-album tiers basic 0 / private 50 / premium 150, travel zones local 0 / region 50 / national 200, and a 15% rush surcharge. It also models the calculator effect. That effect prices a configuration into an itemised breakdown and a total. It flags a rush when the event lies strictly between 24 hours in the past and 48 hours in the future. `ComputeQuote` is the pure specification. The `Calculator` class is the calculator's priced state: the five settings and the rush flag, total and breakdown. Its `Recompute` method is the effect. React runs the effect once at mount, which a caller models by calling `Recompute` after the constructor, and again whenever a dependency changes. So each setter the controls call leaves the state untouched when the value is unchanged (React's same-value bail-out) and re-runs the effect otherwise.
- **Plan table** (`PricingTable`, from `components/ui/pricing-table.tsx`). This covers the check-mark rule over the tiers starter < pro < all, and the choice of what a feature cell shows (its text, a check or a minus). The `PlanSelector` class holds the selected-plan state, its click handler and the lookup of the selected plan's name.
- **Ripple waves** (`ShaderWaves`, from `components/ui/ShaderAnimation.tsx`). A fixed buffer of four `(x, y, startTime)` slots. A click claims the lowest free slot in place. The frame loop advances the clock by 0.015. `FindFreeSlot` is the scan loop, and the `RippleField` class holds the array and the clock.

Inputs that come from outside the model:
- The event date is stored as an instant in milliseconds, or None while the field is empty.
- The clock enters as a `now` parameter of `Recompute` and of every setter, because each run of the effect reads it afresh. `ComputeQuote` sees its difference from the event date, `eventOffset`.
- Pointer positions enter as already-converted physical coordinates.
- Whether an `onPlanSelect` callback was supplied enters as a flag.

- The code neither clamps nor rejects out-of-range hours or photo counts. `ComputeQuote` accepts any integers. The non-negativity lemma assumes only `hours >= 0`, because the `Math.max` floor already keeps the extra-photo charge non-negative.
- The code ships one hard-coded rate table, and the model uses those constants.

## Model

| member | source | states |
|---|---|---|
| `QuoteCalculator.WebAlbumRate` | components/Pricing.tsx:17-21 | album fees lie in 0..150, and only the basic tier is free |
| `QuoteCalculator.TravelRate` | components/Pricing.tsx:23-27 | travel fees lie in 0..200, and only the local zone is free |
| `QuoteCalculator.ExtraPhotos` | components/Pricing.tsx:280 | the extra-photo count is the larger of 0 and count - 150 |
| `QuoteCalculator.ComputeQuote` | components/Pricing.tsx:279-290 | one run of the effect: the rush flag is the window test, the total is the subtotal x 1.15 under rush and x 1 otherwise, personnel is 100 x hours, extra photos cost 2 each |
| `QuoteCalculator.DiffHours` | components/Pricing.tsx:273-274 | the offset converted to hours is below 48 exactly when the offset is below 48 hours of milliseconds, and above -24 exactly when it is above -24 hours of milliseconds |
| `QuoteCalculator.IsRush` | components/Pricing.tsx:269-276 | rush holds iff a date is set and the offset is strictly between -24 and +48 hours (-86,400,000 and 172,800,000 ms); no date means no rush |
| `QuoteCalculator.RushWindowIsStrict` | components/Pricing.tsx:275 | no rush without a date, nor at or beyond +48h, nor at or before -24h (both bounds strict) |
| `QuoteCalculator.PersonnelCostPerHour` | components/Pricing.tsx:279 | personnel cost is team size x hours x hourly rate = 100 x hours |
| `QuoteCalculator.ExtraPhotoCharge` | components/Pricing.tsx:280-281 | extra-photo cost is 0 up to 150 photos, exactly 2 x (count - 150) above, never negative |
| `QuoteCalculator.ExtraPhotoChargeIsLinear` | components/Pricing.tsx:280-281 | at or above the included 150, each further photo adds exactly the unit cost 2 |
| `QuoteCalculator.FlatFees` | components/Pricing.tsx:17-27 | platform fee basic 0 / private 50 / premium 150, travel fee local 0 / region 50 / national 200, each strictly increasing by tier |
| `QuoteCalculator.BreakdownAddsUp` | components/Pricing.tsx:285-290 | the breakdown carries each component; subtotal is their sum and total is subtotal + rush fee |
| `QuoteCalculator.RushFeeRule` | components/Pricing.tsx:286 | the stored rush flag is the window test; rush fee is exactly 15/100 of the subtotal under rush, else 0 |
| `QuoteCalculator.QuoteIsNonNegative` | components/Pricing.tsx:279-287 | for hours >= 0: total >= subtotal >= personnel cost >= 0 |
| `QuoteCalculator.MonotoneInHours` | components/Pricing.tsx:279-287 | with the other fields fixed, more hours never lower personnel cost or total |
| `QuoteCalculator.MonotoneInPhotos` | components/Pricing.tsx:280-287 | with the other fields fixed, more photos never lower the total |
| `QuoteCalculator.ScenarioDefaults` | components/Pricing.tsx:255-260 | the initial configuration (3 h, 150 photos, basic, local, no date) costs 300 with no extras and no rush |
| `QuoteCalculator.ScenarioRegion` | components/Pricing.tsx:279-287 | 3 h, 200 photos, private, region, no date: breakdown 300/100/50/50, subtotal 500, total 500 |
| `QuoteCalculator.ScenarioRegionRush` | components/Pricing.tsx:269-287 | same inputs with the event 10 h ahead: rush, fee 75, total 575 |
| `QuoteCalculator.ScenarioMinimumNational` | components/Pricing.tsx:279-287 | the slider minimums (2 h, 150 photos) with national travel: 200 + 200 = 400 |
| `QuoteCalculator.AtInstant` | components/Pricing.tsx:270-274 | at instant `now`, the effect sees the event date minus `now` (none without a date) and the other settings unchanged |
| `QuoteCalculator.RushDependsOnTheClock` | components/Pricing.tsx:272-275 | the same settings are not a rush 49 h before the event and are a rush two hours later, because each run re-reads the clock |
| `QuoteCalculator.Calculator.constructor` | components/Pricing.tsx:255-263 | initial state: no date, local, 3 hours, 150 photos, basic; total 0, empty breakdown, no rush |
| `QuoteCalculator.Calculator.Recompute` | components/Pricing.tsx:268-291 | the effect at instant `now` leaves the settings alone and stores exactly the rush flag, total and breakdown of `ComputeQuote` on the settings seen at `now` |
| `QuoteCalculator.Calculator.SetDate` | components/Pricing.tsx:370 | only the date changes; an unchanged date leaves the rush flag, total and breakdown as they were, and a new date makes the displayed quote that of the new settings at the current instant |
| `QuoteCalculator.Calculator.SetTravelZone` | components/Pricing.tsx:401 | only the travel zone changes; an unchanged zone leaves the rush flag, total and breakdown as they were, and a new zone makes the displayed quote follow, with the clock read again |
| `QuoteCalculator.Calculator.SetHours` | components/Pricing.tsx:436 | only the hours change; an unchanged value leaves the rush flag, total and breakdown as they were, and a new value makes the displayed quote follow, with the clock read again |
| `QuoteCalculator.Calculator.SetPhotoCount` | components/Pricing.tsx:460 | only the photo count changes; an unchanged value leaves the rush flag, total and breakdown as they were, and a new value makes the displayed quote follow, with the clock read again |
| `QuoteCalculator.Calculator.SetAlbumType` | components/Pricing.tsx:483-526 | only the album tier changes; an unchanged tier leaves the rush flag, total and breakdown as they were, and a new tier makes the displayed quote follow, with the clock read again |
| `PricingTable.ShouldShowCheck` | components/ui/pricing-table.tsx:181-193 | "all" always gives a check; a check needs a tier as the included level, and, unless that is "all", a tier as the column level |
| `PricingTable.TierRank` | components/ui/pricing-table.tsx:8 | exactly starter, pro and all are tiers, ranked 0..2 |
| `PricingTable.ShowCheckIsRankComparison` | components/ui/pricing-table.tsx:181-193 | the check rule equals a reference definition: included "all", or included starter/pro at or below the column's tier |
| `PricingTable.AllShowsEverywhere` | components/ui/pricing-table.tsx:185 | included "all" gives a check in every column, whatever its level |
| `PricingTable.ProShowsProAndAll` | components/ui/pricing-table.tsx:186 | included "pro" gives a check exactly in the pro and all columns |
| `PricingTable.StarterShowsEveryTier` | components/ui/pricing-table.tsx:187-191 | included "starter" gives a check exactly in the starter, pro and all columns |
| `PricingTable.OtherShowsNothing` | components/ui/pricing-table.tsx:192 | null or any other included level never gives a check |
| `PricingTable.ShowCheckIsUpwardClosed` | components/ui/pricing-table.tsx:186-191 | for starter and pro, a check at one tier implies a check at every higher tier |
| `PricingTable.HasValueText` | components/ui/pricing-table.tsx:139 | a cell has a text only when the feature has a text map holding a non-empty text for the level |
| `PricingTable.CellContent` | components/ui/pricing-table.tsx:139-151 | a cell shows the level's text iff present and non-empty; otherwise a check iff the check rule holds, else a minus |
| `PricingTable.CheckCellsAreUpwardClosed` | components/ui/pricing-table.tsx:139-151 | for a feature without texts, check cells go upward through the tiers |
| `PricingTable.FindPlan` | components/ui/pricing-table.tsx:169 | `find` gives the first plan at the level, or none iff no plan has it |
| `PricingTable.PlanSelector.SelectedPlanName` | components/ui/pricing-table.tsx:169 | the button names the FIRST plan at the selected level, and is empty iff no plan has that level |
| `PricingTable.PlanSelector.constructor` | components/ui/pricing-table.tsx:42-50 | the selection starts at the given default plan, "pro" when none is given |
| `PricingTable.PlanSelector.HandlePlanSelect` | components/ui/pricing-table.tsx:52-55 | the selection becomes the clicked plan, and the callback, when supplied, receives it |
| `ShaderWaves.IsFree` | components/ui/ShaderAnimation.tsx:240-243 | a slot is busy exactly when its start is >= 0 and the clock is at most 4 past it |
| `ShaderWaves.ShaderSkips` | components/ui/ShaderAnimation.tsx:65-68 | the shader draws a wave exactly when 0 <= start <= time <= start + 4 |
| `ShaderWaves.ShaderSkipsExactlyFreeSlots` | components/ui/ShaderAnimation.tsx:65-68 | for elapsed >= 0 the shader skips a wave exactly when the click handler would treat its slot as free |
| `ShaderWaves.DrawnWavesAreNotFree` | components/ui/ShaderAnimation.tsx:65-68 | a wave the shader draws never sits in a slot the click handler may reuse |
| `ShaderWaves.FirstFree` | components/ui/ShaderAnimation.tsx:238-247 | the result is the lowest index whose slot is inactive (start < 0) or expired (elapsed > 4), or -1 iff there is none |
| `ShaderWaves.FindFreeSlot` | components/ui/ShaderAnimation.tsx:236-247 | the scan with early `break` returns exactly that lowest free index, or -1 |
| `ShaderWaves.Spawned` | components/ui/ShaderAnimation.tsx:249-252 | a click keeps the length; the only slot that can change is the lowest free one, which becomes (x, y, now); nothing changes iff there is no free slot or it already holds that wave |
| `ShaderWaves.SpawnOverwritesLowestFreeSlot` | components/ui/ShaderAnimation.tsx:250-252 | when a free slot exists, only the lowest one changes, and it becomes (x, y, currentTime) |
| `ShaderWaves.SpawnWithoutFreeSlotChangesNothing` | components/ui/ShaderAnimation.tsx:250 | with no free slot, the buffer is unchanged |
| `ShaderWaves.SpawnUsesOneFreeSlot` | components/ui/ShaderAnimation.tsx:236-252 | at a non-negative time a click lowers the number of free slots by exactly one, or keeps it at zero |
| `ShaderWaves.FreeCountWhenAllFree` | components/ui/ShaderAnimation.tsx:243 | when every slot passes the free test, all of them count as free |
| `ShaderWaves.InitialSlotsAreFree` | components/ui/ShaderAnimation.tsx:157 | the initial buffer of start time -100 has all 4 slots free, at every time, and slot 0 is the first taken |
| `ShaderWaves.TimeAfter` | components/ui/ShaderAnimation.tsx:280 | the frame clock never goes back, and moves forward on every frame |
| `ShaderWaves.TimeAfterIsLinear` | components/ui/ShaderAnimation.tsx:280 | after n frames the clock reads its start + 0.015 x n |
| `ShaderWaves.FreshWaveLifetimeInFrames` | components/ui/ShaderAnimation.tsx:240-243 | a wave written at a time >= 0 stays busy for 266 frames, and its slot is free from frame 267 on |
| `ShaderWaves.RippleField.constructor` | components/ui/ShaderAnimation.tsx:157-163 | four slots (0, 0, -100) and the clock at 0 |
| `ShaderWaves.RippleField.HandleInteraction` | components/ui/ShaderAnimation.tsx:232-252 | the array (still of length 4) becomes the spawn of its old contents at the current time |
| `ShaderWaves.RippleField.Animate` | components/ui/ShaderAnimation.tsx:280 | the clock advances by 0.015; the array and its contents are untouched |

## Left out

- Date-string parsing and reading the wall clock: the date enters as an instant in milliseconds and the clock as a `now` parameter. An unparsable date string makes the difference NaN in the code, so no rush is flagged. That case behaves like None here.
- Floating point: money, the 0.15 rate, the clock and the pointer positions are exact `real`s and `int`s. IEEE rounding of `subtotal * 0.15` and the drift from adding 0.015 each frame are not modelled.
- Currency formatting (`Intl.NumberFormat`), the deposit display, the translation tables, the static package catalogue and all JSX rendering are not modelled, because they are presentation.
- `PricingTable.Plan`: prices, the "popular" badge and descriptions are not modelled, because they are display only. The click handler's call of `onPlanSelect` is modelled as returning the notified plan when a callback is supplied.
- The row highlight `feature.included === selectedPlan` is not modelled, because it only sets a style.
- The fragment shader's lighting and distortion, cover-mode UV maths, mouse-to-pixel conversion, the Three.js scene, texture loading, resize and cleanup are not modelled. They are GPU numerics and foreign library calls.
- `ShaderWaves.RippleField.HandleInteraction`: the early return while the scene is not yet set up is not modelled, because the object only exists once set up. Slots are replaced as values; the code updates the `Vector3` objects in place, and only their contents are observable.
- React scheduling: a setter with a new value re-runs the effect at once. In the browser the effect runs after the next render. The date is compared as an instant, not as the input's string; the date input yields one string per day, so the two comparisons agree.
- The location name (`components/Pricing.tsx:256`), the active tab, the open tooltip and the mobile-details toggle are state the price never reads. They are not modelled.
- The other components (services, hero, navigation, cursor, portfolio, contact) and the chat-service wrapper are not part of this model.
