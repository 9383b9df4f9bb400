# Resolv points processors: a verified model

This project models the points-accrual engine that the Resolv Sentio
processors share, together with the boost stores that feed its multiplier.

Each deployment keeps one snapshot per position or account in a store.
- Uniswap v3 USR/USDC and Aerodrome Slipstream USR/RLP key snapshots by NFT token id.
- Curve keys them by `pool.account`.
- Aerodrome USR/USDC, Euler and the RLP holding tracker key them by account.

On every event or timer tick, a processed snapshot earns

    value × DAILY_POINTS × (now − snapshot time) / one day × boost multiplier

points. That is zero when the snapshot is not older than the block. The
snapshot is then re-valued and stamped with the block time, a
`point_update` audit record is appended, and the store is upserted. In the
two NFT deployments, a valuation that reverts on a burned token deletes the
snapshot and emits a terminal record.

The boost multiplier comes from one of two stores:
- a time-series store with a ten-minute refresh gate, paged reload and
  binary search (holding-usr);
- a latest-only store with an additive policy that changes at a cutover
  instant (aero-usr-usdc).

The aero-usr-usdc processor only reads the latest-only store
(resolv-aero-usr-usdc/src/processor.ts:14 imports `getBoostMultiplier` and
`getBoosts`). Nothing in that deployment calls `updateBoosts`, so its map
stays `{}` and every multiplier there is 1
(`AeroUsdcProcessor.NeverRefreshedIsUnboosted`). The model still takes the
map as part of the block, so the refresh and the additive policy are
modelled for a map that is filled.

The flags in those stores are written by the resolv-boosts recorder. It
sets dinero, blueprint and hyperliquid flags per account and emits a
`boosts` event only when a flag changes.

Modules:
- `Common`: ASCII lower-casing, null addresses, substring search, `split(".")[1]`, first-match search, option/result.
- `Accrual`: the shared points formula and its laws.
- `Store`: `ctx.store.upsert` of a list.
- `BoostHistory`: holding-usr `boosts.ts`.
- `BoostLatest`: aero-usr-usdc `boosts.ts`.
- `BoostRecorder`: the resolv-boosts processors.
- `ChainSearch`: `getCreationBlock` and `POOL_START_BLOCK`.
- `UniswapConfig` and `UniswapProcessor`.
- `ClConfig` and `ClProcessor`.
- `CurveConfig` and `CurveProcessor`.
- `AeroUsdcProcessor`.
- `EulerProcessor`.
- `HoldingRlpConfig` and `HoldingRlpProcessor`.

Each processor is a class. Its `store` is a map field and its `events` is an
appended sequence. Handlers are methods proved against specification
functions of the old store and of the block. The block is a `Block` or
`Chain` value, which gives the RPC answers, the USDC price and the
multiplier lookup.

`GLOBAL_CONFIG.execution.sequential` orders handler invocations. It does not
order the awaited calls inside one `Promise.all`. The model chooses one
reading: the list is processed in list order against the store as it was
before the handler, and then every result is upserted. So the order of the
audit records within one handler is the list order, and a failing list
reports the failure of the first failing element by position
(`Common.FirstError`; in the two position processors, `FirstThrow`, which
skips burns). The source fixes neither. A rejection does not cancel the
other calls, so every listed position is still processed: its records are
written and, if burned, it is deleted, even when the handler then fails.

Deployment quirks are reproduced as written:
- `MILLISECOND_PER_HOUR` is one day.
- The Slipstream burn test matches any error containing `"ID"`.
- The aero-usr-usdc Transfer parties are processed without their stored
  snapshot, so they earn nothing on that event.
- Curve config lookups are case-sensitive, while the Uniswap ones are not.

## Model

| member | source | states |
|---|---|---|
| Accrual.NoAccrualWithoutElapsedTime | resolv-uniswapv3-eth/src/processor.ts:287-307 | no points unless the block is strictly later than the snapshot; a strictly later block with non-zero value, rate and multiplier gives non-zero points |
| Accrual.PointsNonNegative | resolv-uniswapv3-eth/src/processor.ts:298-307 | a non-negative value and multiplier never earn negative points |
| Accrual.PointsAdditive | resolv-euler-usr-eth/src/processor.ts:123-148 | accruing from t0 to t1 and then from t1 to t2 (same value and multiplier) equals accruing from t0 to t2 |
| Accrual.PointsMonotoneInTime | resolv-curve-eth/src/processor.ts:145-170 | for a non-negative value and multiplier, a later block never earns fewer points |
| Common.ToLower | resolv-aero-usr-rlp-cl-base/src/config.ts:28 | lower-casing keeps the length and maps every character through the ASCII A–Z fold |
| Common.ToLowerIdempotent | resolv-aero-usr-rlp-cl-base/src/config.ts:28-31 | a lower-cased string is lower case and lower-casing it again changes nothing |
| Common.NonNull | resolv-curve-eth/src/processor.ts:55-57 | the filter keeps exactly the non-null addresses of its input |
| Common.Includes | resolv-uniswapv3-eth/src/processor.ts:242 | `includes` is true iff the pattern occurs at some position of the message |
| Common.SecondFieldOfComposite | resolv-curve-eth/src/processor.ts:99 | `split(".")[1]` of `pool + "." + account` is the account when the pool has no dot and the account no dot |
| Common.FindFirst | resolv-uniswapv3-eth/src/config.ts:57-59 | `find` is undefined iff no element matches, else the first matching element |
| Common.FirstError | resolv-curve-eth/src/processor.ts:35-40 | `Promise.all` fails iff some element fails, with the first failure's message |
| Common.IndexOf | resolv-curve-eth/src/processor.ts:99 | none iff the character is absent, else the position of its first occurrence |
| Common.SecondField | resolv-curve-eth/src/processor.ts:99 | `split(".")[1]`: none iff the string has no dot; otherwise a dot-free string that starts right after the first dot |
| Common.Prepend | resolv-holding-usr-eth/src/boosts.ts:66-119 | an error passes through unchanged; a success is the rows read so far followed by the new ones |
| Common.PrependTwice | resolv-holding-usr-eth/src/boosts.ts:66-119 | accumulating pages is associative: prefixing two batches equals prefixing their concatenation |
| Store.UpsertedKeys | resolv-curve-eth/src/processor.ts:40 | after upserting a list, the keys are the old keys plus the listed ids |
| Store.UpsertedUntouched | resolv-curve-eth/src/processor.ts:40 | an id not in the list keeps its old snapshot |
| Store.UpsertedLast | resolv-curve-eth/src/processor.ts:40 | a listed id holds the last entry written for it |
| Store.UpsertedConsistent | resolv-curve-eth/src/processor.ts:40 | when all entries for an id agree, that id holds any one of them |
| Store.UpsertedAll | resolv-aero-usr-usdc/src/processor.ts:39 | upserting snapshots that agree per id leaves exactly the old ids plus the new ones, keeps the others and stores each new snapshot under its id |
| BoostHistory.Multiplier | resolv-holding-usr-eth/src/boosts.ts:19-29 | the multiplier is 1, 2 or 4; it is 1 iff neither flag is set and 4 iff both are |
| BoostHistory.LastAtOrBefore | resolv-holding-usr-eth/src/boosts.ts:49-59 | reference: the greatest index whose record is not later than t, or −1 |
| BoostHistory.BeforeFirstRecordIsDefault | resolv-holding-usr-eth/src/boosts.ts:59 | a query earlier than an account's first record answers the default, never that record |
| BoostHistory.SearchLatest | resolv-holding-usr-eth/src/boosts.ts:49-58 | the ceiling-midpoint search terminates in bounds; on a sorted list it lands on the greatest index not later than t, and if that index's record is later then no record qualifies |
| BoostHistory.BoostsByTime | resolv-holding-usr-eth/src/boosts.ts:35-60 | the account is lower-cased; an unknown account gets the all-false default stamped t; on a sorted list the answer is the last record not later than t, else the default |
| BoostHistory.GroupIsPerAccountRows | resolv-holding-usr-eth/src/boosts.ts:101-112 | after grouping, an account is present iff it has a row, and its list is its rows in arrival order |
| BoostHistory.GroupWellFormed | resolv-holding-usr-eth/src/boosts.ts:101-112 | grouping files every record under its own account and creates no empty list |
| BoostHistory.RowsOfBoundedBy | resolv-holding-usr-eth/src/boosts.ts:101-112 | rows all earlier than a bound give per-account lists earlier than it |
| BoostHistory.RowsOfSorted | resolv-holding-usr-eth/src/boosts.ts:101-112 | rows in time order give each account a time-ordered list |
| BoostHistory.GroupSortedWhenRowsSorted | resolv-holding-usr-eth/src/boosts.ts:101-112 | the query is ordered by timestamp, so every grouped list is sorted, which is what the search needs |
| BoostHistory.PushAll | resolv-holding-usr-eth/src/boosts.ts:101-112 | pushing a page's rows onto the groups of the earlier pages gives the grouping of all rows so far |
| BoostHistory.ReadPagesFull | resolv-holding-usr-eth/src/boosts.ts:66-119 | a full page is never the last one, and after it the rows read so far plus its rows are followed by the reading of the next page |
| BoostHistory.BoostCache.constructor | resolv-holding-usr-eth/src/boosts.ts:14-15 | the cache starts empty with refresh time 0 |
| BoostHistory.BoostCache.FetchBoosts | resolv-holding-usr-eth/src/boosts.ts:62-124 | under ten minutes since the last refresh, the cache is returned unchanged; otherwise all pages of 10000 rows are read up to the first short page; a missing key or empty answer fails with the cache unchanged; on success the map becomes the grouping of all rows and the time is stamped |
| BoostHistory.BoostCache.GetBoostsByTime | resolv-holding-usr-eth/src/boosts.ts:35-60 | refresh, then the lower-cased account's record at t, the default when it is unknown; a failed refresh changes nothing |
| BoostHistory.BoostCache.GetBoostMultiplier | resolv-holding-usr-eth/src/boosts.ts:19-29 | the multiplier is 1, 2 or 4, that of the searched record, and 1 for an unknown account |
| BoostLatest.MultiplierBounds | resolv-aero-usr-usdc/src/boosts.ts:15-29 | the additive multiplier is at least 1, at most 2.25 before the cutover and 1.45 from it on, and exactly 1 iff no flag is set |
| BoostLatest.CutoverIsStrict | resolv-aero-usr-usdc/src/boosts.ts:10-26 | at exactly 1733961600000 the post-cutover increments apply; a dinero boost drops by at least 0.4 across the cutover; with neither dinero nor hyperliquid nothing changes |
| BoostLatest.LatestIsLastRow | resolv-aero-usr-usdc/src/boosts.ts:73-81 | an account is present iff it has a row, and its record is built from its last row |
| BoostLatest.LatestKeyedByAccount | resolv-aero-usr-usdc/src/boosts.ts:73-81 | every record is stored under its own account |
| BoostLatest.AssignAll | resolv-aero-usr-usdc/src/boosts.ts:73-81 | assigning a page's rows over the map of the earlier pages gives the last-row map of all rows so far |
| BoostLatest.ReadPagesFull | resolv-aero-usr-usdc/src/boosts.ts:42-93 | a full page is never the last one, and after it the rows read so far plus its rows (a missing `rows` read as none) are followed by the reading of the next page |
| BoostLatest.LatestBoosts.constructor | resolv-aero-usr-usdc/src/boosts.ts:12-13 | the store starts empty with refresh time 0 |
| BoostLatest.LatestBoosts.GetBoosts | resolv-aero-usr-usdc/src/boosts.ts:31-40 | the lower-cased account's record, or an all-false default for it |
| BoostLatest.LatestBoosts.GetBoostsCaseInsensitive | resolv-aero-usr-usdc/src/boosts.ts:32 | the lookup gives the same answer for any spelling of the account |
| BoostLatest.LatestBoosts.GetBoostMultiplier | resolv-aero-usr-usdc/src/boosts.ts:15-29 | the multiplier of the looked-up record at the block time, within [1, 2.25] before the cutover and [1, 1.45] after |
| BoostLatest.LatestBoosts.UpdateBoosts | resolv-aero-usr-usdc/src/boosts.ts:42-93 | pages of 10000 up to the first short one, a missing `rows` being empty; on success the map becomes the last-row map and the time is stamped; a missing key or empty answer fails with the old state kept |
| BoostRecorder.Updated | resolv-boosts/src/util.ts:4-27 | a missing snapshot counts as all-false; an update happens iff the field differs from the value, sets that field and keeps the others |
| BoostRecorder.UpdateIdempotent | resolv-boosts/src/util.ts:17-26 | applying the same update again after persisting it changes nothing |
| BoostRecorder.FirstHyperliquidUpdateChanges | resolv-boosts/src/util.ts:10-17 | an account without a hyperliquid field always changes on its first hyperliquid update |
| BoostRecorder.FilterSnapshots | resolv-boosts/src/util.ts:29-31 | keeps exactly the defined entries |
| BoostRecorder.FilterSnapshotsAppend | resolv-boosts/src/util.ts:29-31 | filtering distributes over concatenation, so order is kept |
| BoostRecorder.FilterSnapshotsAllDefined | resolv-boosts/src/util.ts:29-31 | with no undefined entries nothing is dropped |
| BoostRecorder.ChangedAreTargets | resolv-boosts/src/dinero_processor.ts:14-17 | every upserted snapshot belongs to a processed party and carries that party's new flag; two for the same party agree |
| BoostRecorder.PartiesAfterUpsert | resolv-boosts/src/dinero_processor.ts:17 | after the upsert each party's field equals its rule's value with its other fields kept, and every other account is untouched |
| BoostRecorder.PartyStored | resolv-boosts/src/dinero_processor.ts:14-17 | after the upsert a party holds its updated snapshot when its update changed something, and its old one otherwise |
| BoostRecorder.UnchangedPartyKept | resolv-boosts/src/util.ts:29-31 | only changed snapshots are written: a party whose update reported nothing keeps its stored record, and an absent one stays absent |
| BoostRecorder.UpdatesSnoc | resolv-boosts/src/dinero_processor.ts:14-16 | the updates of one more party are the earlier updates followed by that party's own, computed against the same store |
| BoostRecorder.EventsOfAppend | resolv-boosts/src/util.ts:19-23 | the `boosts` events of two lists of changes are the events of the first followed by those of the second |
| BoostRecorder.Recorder.constructor | resolv-boosts/src/util.ts:10-16 | the store and the event log start empty, so every account reads as all-false |
| BoostRecorder.Recorder.UpdateBoost | resolv-boosts/src/util.ts:4-27 | returns the changed snapshot of the account, if any, and emits one `boosts` event with its dinero and blueprint flags exactly when it does |
| BoostRecorder.Recorder.ComputeUpdates | resolv-boosts/src/dinero_processor.ts:14-16 | each party's update is computed against the store before the handler, with the events of the changed ones |
| BoostRecorder.Recorder.ApplyToParties | resolv-boosts/src/dinero_processor.ts:14-17 | the parties' flags are set by the rule, the others kept with their presence, one event per change is emitted, and the new store is the old one with exactly the changed snapshots written |
| BoostRecorder.Recorder.UpsertAll | resolv-boosts/src/dinero_processor.ts:17 | given changes that agree per id, each listed snapshot is stored under its id and every unlisted account keeps its presence and snapshot |
| BoostRecorder.Recorder.OnDineroTransfer | resolv-boosts/src/dinero_processor.ts:7-44 | for either token, each non-null party gets dinero := apxETH balance > 0 or pxETH balance > 0 with its other flags kept; every other account is untouched and keeps its presence; the new store is the old one with exactly the changed snapshots written; the appended `boosts` events are those of the parties whose flag changed, in party order |
| BoostRecorder.Recorder.OnHyperliquidTransfer | resolv-boosts/src/hyperliquid_processor.ts:7-28 | a Transfer that is not to the bridge or has no positive value changes neither the store nor the events; otherwise both non-null parties, the bridge included, get hyperliquid set, the new store is the old one with exactly the changed snapshots written, and the appended `boosts` events are those of the parties whose flag changed; a set flag is never cleared and every other account is untouched and keeps its presence |
| BoostRecorder.Recorder.OnBlueprintTransfer | resolv-boosts/src/blueprint_processor.ts:7-23 | each non-null party gets blueprint := its own balance > 0 with its other flags kept; every other account is untouched and keeps its presence; the new store is the old one with exactly the changed snapshots written; the appended `boosts` events are those of the parties whose flag changed, in party order |
| ChainSearch.FirstWithCode | resolv-uniswapv3-eth/src/config.ts:62-79 | reference: the first block in range with code, or `latest` |
| ChainSearch.FirstWithCodeUnique | resolv-curve-eth/src/config.ts:56-73 | a block that has code (or is `latest`) with no earlier block with code is the reference answer |
| ChainSearch.GetCreationBlock | resolv-uniswapv3-eth/src/config.ts:62-79 | the floor-midpoint search terminates within [0, latest] at a block with code (or `latest`) whose predecessor has none; for code that stays once deployed this is the first block with code |
| ChainSearch.Min | resolv-uniswapv3-eth/src/config.ts:50-54 | `Math.min` is an element not above any other |
| ChainSearch.PoolStartBlock | resolv-uniswapv3-eth/src/config.ts:50-54 | the start block is the least creation block over the pools |
| UniswapConfig.MillisecondPerHourIsOneDay | resolv-uniswapv3-eth/src/config.ts:15-16 | `MILLISECOND_PER_HOUR` is 86 400 000, one day |
| UniswapConfig.GetPoolInfo | resolv-uniswapv3-eth/src/config.ts:56-60 | undefined iff no pool address equals the query ignoring case, else the first one that does |
| UniswapConfig.GetPoolInfoCaseInsensitive | resolv-uniswapv3-eth/src/config.ts:56-60 | the lookup does not depend on the case of the query |
| UniswapConfig.ConfiguredPoolResolves | resolv-uniswapv3-eth/src/config.ts:56-60 | a configured pool is found by its own address |
| UniswapConfig.AddressResolves | resolv-uniswapv3-eth/src/processor.ts:74 | the address of a stored snapshot always resolves, which justifies the `!` |
| UniswapConfig.GetTokenPrice | resolv-uniswapv3-eth/src/config.ts:81-91 | USR is 1, USDC the feed price, and anything else throws "unsupported token" |
| UniswapConfig.GetTokenPriceCaseInsensitive | resolv-uniswapv3-eth/src/config.ts:82-86 | the price table ignores the case of the token |
| UniswapProcessor.CalcPoints | resolv-uniswapv3-eth/src/processor.ts:281-309 | zero when the block is not later than the snapshot, else the accrual formula with rate 15, the one-day divisor and the lower-cased owner's multiplier |
| UniswapProcessor.Accrued | resolv-uniswapv3-eth/src/processor.ts:195-197 | no prior snapshot accrues 0 |
| UniswapProcessor.ValuationSpec | resolv-uniswapv3-eth/src/processor.ts:312-344 | the valuation fails iff the position calls revert (with their message) or a token is unpriced; otherwise it is stamped now, with the position's owner and amounts, valued a0·p0 + a1·p1 |
| UniswapProcessor.CheckNft | resolv-uniswapv3-eth/src/processor.ts:412-433 | none if `positions()` reverts or no pool matches; else the first pool whose tokens match ignoring case and whose fee matches exactly |
| UniswapProcessor.SuccessRecord | resolv-uniswapv3-eth/src/processor.ts:209-239 | the account is the prior owner, else the new one; the before-side is the prior snapshot or "noone"/0/0 |
| UniswapProcessor.BurnRecord | resolv-uniswapv3-eth/src/processor.ts:248-273 | the terminal record has new owner "noone", amounts 0 and the block time |
| UniswapProcessor.PositionEvents | resolv-uniswapv3-eth/src/processor.ts:188-279 | one record exactly when the valuation succeeds or a position with a prior snapshot is burned; it carries the token, the pool, the prior snapshot's accrued points and the trigger; a success gives the new owner and value, a burn owner "noone" and value 0 |
| UniswapProcessor.PoolsAt | resolv-uniswapv3-eth/src/processor.ts:171-176 | the pool listed for the k-th position is the configured pool of its stored pool address |
| UniswapProcessor.Plan | resolv-uniswapv3-eth/src/processor.ts:171-181 | one planned valuation per position |
| UniswapProcessor.PlanAt | resolv-uniswapv3-eth/src/processor.ts:171-181 | the k-th planned valuation is that of the k-th position in its pool |
| UniswapProcessor.Emitted | resolv-uniswapv3-eth/src/processor.ts:171-181 | at most one record per position, the positions' records in list order |
| UniswapProcessor.FirstThrow | resolv-uniswapv3-eth/src/processor.ts:169-183 | no error is passed on iff every valuation succeeds or is a burn; otherwise the error is the message of the first valuation that fails other than by a burn |
| UniswapProcessor.FirstThrowIff | resolv-uniswapv3-eth/src/processor.ts:169-183 | over the listed stored positions, nothing is passed on iff no position's outcome fails other than by a burn |
| UniswapProcessor.UpsertedByOutcome | resolv-uniswapv3-eth/src/processor.ts:182 | per-position upsert results carry over to each stored id |
| UniswapProcessor.KeptByOutcome | resolv-uniswapv3-eth/src/processor.ts:171-181 | which listed positions are still stored, exactly those not burned, carries over to each stored id |
| UniswapProcessor.FollowedStep | resolv-uniswapv3-eth/src/processor.ts:171-181 | processing one more position, returned, dropped after a burn or thrown with its valuation's message, keeps every result following its valuation, the kept error the first non-burn failure, and exactly the burned positions among those processed out of the store |
| UniswapProcessor.UniswapPoints.constructor | resolv-uniswapv3-eth/src/processor.ts:40-44 | the store and the audit log start empty |
| UniswapProcessor.UniswapPoints.ProcessPosition | resolv-uniswapv3-eth/src/processor.ts:188-279 | success returns the fresh snapshot and logs the accrued points; an "Invalid token ID" failure deletes the snapshot, logs the terminal record and returns nothing (throws if there was no prior); any other failure is rethrown untouched |
| UniswapProcessor.UniswapPoints.Settle | resolv-uniswapv3-eth/src/processor.ts:61-63 | a returned snapshot is upserted; a throw is passed on with the store untouched |
| UniswapProcessor.UniswapPoints.ProcessStored | resolv-uniswapv3-eth/src/processor.ts:171-181 | one stored position processed in its stored pool: its records are appended; a success returns the valuation with the store untouched, a burn returns none and deletes it, any other failure throws |
| UniswapProcessor.UniswapPoints.ProcessAt | resolv-uniswapv3-eth/src/processor.ts:171-181 | processing the i-th position extends the progress over the first i positions to the first i + 1 |
| UniswapProcessor.UniswapPoints.ProgressStart | resolv-uniswapv3-eth/src/processor.ts:171 | before the loop no position is processed, the log is as it was and the store is the starting one |
| UniswapProcessor.UniswapPoints.OnIncreaseLiquidity | resolv-uniswapv3-eth/src/processor.ts:45-67 | tracked tokens use their stored pool, and untracked ones the pool `checkNFT` finds; without a pool neither the store nor the log changes; otherwise the store steps by the valuation (upsert, delete on burn, rethrow) and the log gains exactly the position's records with its stored snapshot as prior |
| UniswapProcessor.UniswapPoints.OnDecreaseLiquidity | resolv-uniswapv3-eth/src/processor.ts:68-89 | untracked tokens change nothing; a tracked one is processed in its stored pool with its stored snapshot as prior: the store steps by the valuation and the log gains exactly the position's records |
| UniswapProcessor.UniswapPoints.OnTransfer | resolv-uniswapv3-eth/src/processor.ts:90-112 | a null party, an untracked token or no matching pool changes nothing; otherwise the position is processed in the pool `checkNFT` finds: the store steps by the valuation and the log gains exactly the position's records |
| UniswapProcessor.UniswapPoints.UpdateAll | resolv-uniswapv3-eth/src/processor.ts:169-183 | every stored position is reprocessed in its stored pool and the log gains all their records in list order; successes are upserted, burned ones deleted and never re-created; it throws iff some stored position's valuation fails other than by a burn, with the first such message in list order, and then no snapshot has changed and exactly the burned positions are gone, every other stored position still being there |
| UniswapProcessor.UniswapPoints.Commit | resolv-uniswapv3-eth/src/processor.ts:169-182 | with an error kept the store stays as the deletes left it, which is the stored positions less exactly the burned ones; otherwise every stored position holds its valuation or, burned, is gone; no error iff no stored valuation fails other than by a burn |
| UniswapProcessor.UniswapPoints.PlanOutcomes | resolv-uniswapv3-eth/src/processor.ts:171-181 | the planned valuations are those of the stored snapshots in their pools, and nothing is passed on iff none of them fails other than by a burn |
| UniswapProcessor.UniswapPoints.PlanStored | resolv-uniswapv3-eth/src/processor.ts:171-181 | the k-th planned valuation is the one made of the k-th stored snapshot |
| UniswapProcessor.UniswapPoints.StoredOutcomes | resolv-uniswapv3-eth/src/processor.ts:169-183 | the kept error and the final store, stated per stored id: with an error kept, a stored id is still there iff its valuation is not a burn |
| UniswapProcessor.UniswapPoints.ProcessAll | resolv-uniswapv3-eth/src/processor.ts:171-181 | after processing the listed positions in order, the log is the old log plus each position's records, each result is its planned valuation or none after a burn, exactly the burned tokens are gone from the store, the kept error is exactly the first failure other than a burn (none iff there is none), and no snapshot has changed value |
| UniswapProcessor.UniswapPoints.UpsertDefined | resolv-uniswapv3-eth/src/processor.ts:182 | only the defined results are upserted |
| UniswapProcessor.UniswapPoints.UpsertOne | resolv-uniswapv3-eth/src/processor.ts:62 | upserts one snapshot under its id |
| ClConfig.Constants | resolv-aero-usr-rlp-cl-base/src/config.ts:13-14 | one day in ms, 30 daily points |
| ClConfig.GetTokenPrice | resolv-aero-usr-rlp-cl-base/src/config.ts:27-35 | USR and RLP are 1 when compared lower-cased on both sides; anything else throws "unsupported token" |
| ClConfig.GetTokenPriceCaseInsensitive | resolv-aero-usr-rlp-cl-base/src/config.ts:28-31 | any spelling of a token gets the same price |
| ClConfig.SameTokenOfLower | resolv-aero-usr-rlp-cl-base/src/config.ts:28 | comparing a lower-cased argument is the same as comparing the argument |
| ClConfig.ConfiguredTokensPriced | resolv-aero-usr-rlp-cl-base/src/processor.ts:255-256 | the processor's own USR and RLP constants are priced at 1 |
| ClProcessor.CalcPoints | resolv-aero-usr-rlp-cl-base/src/processor.ts:210-238 | zero when the block is not later than the snapshot, else the formula with rate 30 |
| ClProcessor.Accrued | resolv-aero-usr-rlp-cl-base/src/processor.ts:127-129 | no prior snapshot accrues 0 |
| ClProcessor.ValuationSpec | resolv-aero-usr-rlp-cl-base/src/processor.ts:241-271 | fails iff the position calls revert; else usr = amount0 and rlp = amount1, usdValue = usr + rlp at price 1, stamped now |
| ClProcessor.CheckNft | resolv-aero-usr-rlp-cl-base/src/processor.ts:327-342 | true iff `positions()` succeeds with token0 = USR and token1 = RLP ignoring case |
| ClProcessor.SuccessRecord | resolv-aero-usr-rlp-cl-base/src/processor.ts:140-169 | the account is the prior owner, else the new one; before-side defaults "noone"/0/0 |
| ClProcessor.BurnRecord | resolv-aero-usr-rlp-cl-base/src/processor.ts:178-202 | terminal record: owner "noone", balances 0, the block time |
| ClProcessor.BurnTestLooserThanUniswap | resolv-aero-usr-rlp-cl-base/src/processor.ts:172 | every Uniswap burn message counts as a burn here, and so does the bare "ID" |
| ClProcessor.PositionEvents | resolv-aero-usr-rlp-cl-base/src/processor.ts:121-208 | one record exactly when the valuation succeeds or a position with a prior snapshot is burned; it carries the token, the prior snapshot's accrued points and the trigger; a success gives the new owner and value, a burn owner "noone" and value 0 |
| ClProcessor.Emitted | resolv-aero-usr-rlp-cl-base/src/processor.ts:110-114 | at most one record per position, the positions' records in list order |
| ClProcessor.FirstThrow | resolv-aero-usr-rlp-cl-base/src/processor.ts:108-116 | no error is passed on iff every valuation succeeds or is a burn; otherwise the error is the message of the first valuation that fails other than by a burn |
| ClProcessor.FirstThrowIff | resolv-aero-usr-rlp-cl-base/src/processor.ts:108-116 | over the listed stored positions, nothing is passed on iff no stored position fails other than by a burn |
| ClProcessor.FollowedStep | resolv-aero-usr-rlp-cl-base/src/processor.ts:110-114 | processing one more position, returned, dropped after a burn or thrown with its valuation's message, keeps every result following its valuation, the kept error the first non-burn failure, and exactly the burned positions among those processed out of the store |
| ClProcessor.ClPoints.constructor | resolv-aero-usr-rlp-cl-base/src/processor.ts:40-44 | the store and the audit log start empty |
| ClProcessor.ClPoints.ProcessPosition | resolv-aero-usr-rlp-cl-base/src/processor.ts:121-208 | as in Uniswap, but any failure containing "ID" is a burn |
| ClProcessor.ClPoints.Settle | resolv-aero-usr-rlp-cl-base/src/processor.ts:55-57 | a returned snapshot is upserted; a throw is passed on |
| ClProcessor.ClPoints.ProcessAt | resolv-aero-usr-rlp-cl-base/src/processor.ts:110-114 | processing the i-th position extends the progress over the first i positions to the first i + 1 |
| ClProcessor.ClPoints.ProgressStart | resolv-aero-usr-rlp-cl-base/src/processor.ts:110 | before the loop no position is processed, the log is as it was and the store is the starting one |
| ClProcessor.ClPoints.OnIncreaseLiquidity | resolv-aero-usr-rlp-cl-base/src/processor.ts:45-61 | an untracked token whose `checkNFT` fails changes nothing; otherwise the store steps by the valuation and the log gains exactly the position's records, with its stored snapshot, if any, as prior |
| ClProcessor.ClPoints.OnDecreaseLiquidity | resolv-aero-usr-rlp-cl-base/src/processor.ts:62-81 | untracked tokens change nothing; a tracked one steps the store by its valuation and the log gains exactly its records with its stored snapshot as prior |
| ClProcessor.ClPoints.OnTransfer | resolv-aero-usr-rlp-cl-base/src/processor.ts:82-99 | a null party or an untracked token changes nothing; otherwise the store steps by the valuation and the log gains exactly the position's records with its stored snapshot as prior |
| ClProcessor.ClPoints.UpdateAll | resolv-aero-usr-rlp-cl-base/src/processor.ts:108-116 | every stored position is reprocessed and the log gains all their records in list order; successes are upserted and burns deleted; it throws iff some stored position's valuation fails other than by a burn, with the first such message in list order, and then no snapshot has changed and exactly the burned positions are gone, every other stored position still being there |
| ClProcessor.ClPoints.ProcessAll | resolv-aero-usr-rlp-cl-base/src/processor.ts:110-114 | after processing the listed positions in order, the log is the old log plus each position's records, each result is its valuation or none after a burn, exactly the burned tokens are gone from the store, the kept error is exactly the first failure other than a burn (none iff there is none), and no snapshot has changed value |
| ClProcessor.ClPoints.UpsertDefined | resolv-aero-usr-rlp-cl-base/src/processor.ts:115 | only defined results are upserted |
| CurveConfig.Constants | resolv-curve-eth/src/config.ts:12-13 | 15 daily points, one day in ms |
| CurveConfig.GetConfig | resolv-curve-eth/src/config.ts:75-77 | undefined iff no config address equals the query exactly, else the first that does |
| CurveConfig.GetPoolInfo | resolv-curve-eth/src/config.ts:79-81 | undefined iff no pool info address equals the query exactly, else the first that does |
| CurveConfig.GetConfigCaseSensitive | resolv-curve-eth/src/config.ts:16-33 | the lower-case pool address finds its config, the upper-case spelling does not |
| CurveConfig.ConfigImpliesPoolInfo | resolv-curve-eth/src/config.ts:35-54 | pool infos are built one per config, so a configured address has a pool info |
| CurveConfig.GetTokenPrice | resolv-curve-eth/src/config.ts:83-97 | USR and RLP are 1, USDC the feed price; anything else throws |
| CurveProcessor.Id | resolv-curve-eth/src/processor.ts:118 | the composite id contains a dot |
| CurveProcessor.IdInjective | resolv-curve-eth/src/processor.ts:118 | within a pool, distinct accounts have distinct ids |
| CurveProcessor.CompositeIdRoundTrip | resolv-curve-eth/src/processor.ts:99 | `split(".")[1]` recovers the account from its id |
| CurveProcessor.CalcPoints | resolv-curve-eth/src/processor.ts:145-170 | zero when the block is not later, else the formula with rate 15 and the multiplier of the id's account |
| CurveProcessor.LpBalance | resolv-curve-eth/src/processor.ts:180-184 | the gauge balance is added only when a gauge is configured and the block is strictly past its start |
| CurveProcessor.ShareBounds | resolv-curve-eth/src/processor.ts:185-189 | the share is 0 for an empty pool; otherwise share × supply = lp, so it lies in [0, 1] when lp ≤ supply |
| CurveProcessor.RoundNearest | resolv-curve-eth/src/processor.ts:195 | `toFixed(0)` is within half a unit |
| CurveProcessor.AmountIsRoundedShare | resolv-curve-eth/src/processor.ts:193-201 | scaled back by the decimals, an amount is the rounded pro-rata part of the token total |
| CurveProcessor.Valued | resolv-curve-eth/src/processor.ts:172-216 | a pricing error is passed on; otherwise the snapshot is under the composite id, of this pool, stamped now |
| CurveProcessor.AccountSnapshotSpec | resolv-curve-eth/src/processor.ts:172-216 | "config not found" for an unconfigured pool; success iff config, pool info and both prices exist; then the amounts are the rounded shares and the value a0·p0 + a1·p1 |
| CurveProcessor.AccountSnapshotAsWritten | resolv-curve-eth/src/processor.ts:176-193 | as written, "config not found" iff the pool is unconfigured, and a TypeError otherwise |
| CurveProcessor.GetBalancesMissingThrows | resolv-curve-eth/src/processor.ts:193 | wherever the model values an account, the code as written throws |
| CurveProcessor.Record | resolv-curve-eth/src/processor.ts:127-141 | the before-side is the prior snapshot or zeros; the after-side is the new snapshot |
| CurveProcessor.Prior | resolv-curve-eth/src/processor.ts:119-121 | the passed snapshot, else the stored one under the composite id |
| CurveProcessor.Accrued | resolv-curve-eth/src/processor.ts:122 | none without a prior snapshot, else its points |
| CurveProcessor.Valuations | resolv-curve-eth/src/processor.ts:35-39 | one valuation per account |
| CurveProcessor.ValuationsAt | resolv-curve-eth/src/processor.ts:35-39 | the k-th valuation is that of the k-th account |
| CurveProcessor.CurvePoints.constructor | resolv-curve-eth/src/processor.ts:25-29 | the store and the audit log start empty |
| CurveProcessor.CurvePoints.RecordFor | resolv-curve-eth/src/processor.ts:112-143 | one record exactly when the valuation succeeds, for that account and trigger |
| CurveProcessor.CurvePoints.ProcessAccount | resolv-curve-eth/src/processor.ts:112-143 | returns the account's valuation and logs its record |
| CurveProcessor.CurvePoints.ProcessEach | resolv-curve-eth/src/processor.ts:35-39 | processes the accounts in order against the old store |
| CurveProcessor.CurvePoints.ProcessParties | resolv-curve-eth/src/processor.ts:35-40 | succeeds iff every valuation does; then each party's snapshot is upserted; on failure the store is untouched |
| CurveProcessor.CurvePoints.UpsertFresh | resolv-curve-eth/src/processor.ts:40 | each new snapshot is stored under its composite id and everything else is kept |
| CurveProcessor.CurvePoints.OnAddLiquidity | resolv-curve-eth/src/processor.ts:30-41 | a null provider changes nothing; otherwise it succeeds iff the provider is valued, its snapshot is upserted under the composite id, and the log gains its record exactly when it is valued |
| CurveProcessor.CurvePoints.OnRemoveLiquidity | resolv-curve-eth/src/processor.ts:42-53 | a null provider changes nothing; otherwise it succeeds iff the provider is valued, its snapshot is upserted under the composite id, and the log gains its record exactly when it is valued |
| CurveProcessor.AllValued | resolv-curve-eth/src/processor.ts:54-65 | every listed party valued, by position, iff every listed account has a snapshot |
| CurveProcessor.CurvePoints.OnTransfer | resolv-curve-eth/src/processor.ts:54-65 | the non-null sender and receiver are valued and upserted under their composite ids, and the store gains exactly those ids; it succeeds iff every non-null party is valued; every other snapshot keeps its value; on failure the store is untouched; either way the log gains the records of the valued ones, sender first |
| CurveProcessor.CurvePoints.ProcessOne | resolv-curve-eth/src/processor.ts:31-40 | a null party changes nothing; otherwise it succeeds iff the party is valued, the snapshot is written at its composite id (a single map update) and its record is appended |
| CurveProcessor.CurvePoints.OnTimeInterval | resolv-curve-eth/src/processor.ts:86-109 | every snapshot of this pool is reprocessed with itself passed in, for the account after the dot, and the log gains their records in order; it succeeds iff every listed account is valued; on success each id holds the fresh snapshot, every other snapshot (the other pool's included) keeps its value, no id is lost, and when every id is its own account's composite id the key set is unchanged; on failure the store is untouched |
| CurveProcessor.IntervalAccounts | resolv-curve-eth/src/processor.ts:99 | one account per listed id: the dot-free field right after its first dot |
| CurveProcessor.IntervalKeys | resolv-curve-eth/src/processor.ts:95-100 | re-upserting the accounts of the stored ids loses no id, and adds none when every id is the composite id of its own account |
| CurveProcessor.UpsertedOne | resolv-curve-eth/src/processor.ts:40 | upserting one party's snapshot is a single map update at its composite id |
| CurveProcessor.CurvePoints.Emitted | resolv-curve-eth/src/processor.ts:35-39 | at most one record per account |
| CurveProcessor.CurvePoints.EmittedSnoc | resolv-curve-eth/src/processor.ts:35-39 | the records of one more account are the earlier records followed by that account's record |
| CurveProcessor.CurvePoints.EmittedOne | resolv-curve-eth/src/processor.ts:31-40 | the records of a single account processed with no snapshot are its own record |
| CurveProcessor.CurvePoints.StoredEach | resolv-curve-eth/src/processor.ts:96-100 | each listed snapshot is passed in as it is stored |
| AeroUsdcProcessor.CalcPoints | resolv-aero-usr-usdc/src/processor.ts:117-142 | zero when the block is not later, else the formula with the id's multiplier |
| AeroUsdcProcessor.CalcPointsBoostRange | resolv-aero-usr-usdc/src/processor.ts:130-141 | with a non-negative value, boosted points lie between 1× and 2.25× the unboosted points |
| AeroUsdcProcessor.BalanceScaledBack | resolv-aero-usr-usdc/src/processor.ts:84-89 | balance × supply × 10^decimals = reserve × lp |
| AeroUsdcProcessor.BalanceAdditive | resolv-aero-usr-usdc/src/processor.ts:84-89 | balances of two LP holdings add up |
| AeroUsdcProcessor.BalanceOfWholeSupply | resolv-aero-usr-usdc/src/processor.ts:84-89 | the whole supply is worth the scaled reserve |
| AeroUsdcProcessor.LatestSnapshot | resolv-aero-usr-usdc/src/processor.ts:78-98 | id = account, stamped now, non-negative balances, usdValue = usr + usdc |
| AeroUsdcProcessor.RecordForSpec | resolv-aero-usr-usdc/src/processor.ts:64-115 | the points of the snapshot passed in, else 0 with an all-zero before-side (the store is not read); the after-side of the latest snapshot; the account's boost flags |
| AeroUsdcProcessor.NeverRefreshedIsUnboosted | resolv-aero-usr-usdc/src/processor.ts:14 | with the boost map never refreshed, hence empty, every account has multiplier 1 and no flag set |
| AeroUsdcProcessor.Emitted | resolv-aero-usr-usdc/src/processor.ts:100-113 | one record per processed account, in order |
| AeroUsdcProcessor.NoSnapshotAccruesNothing | resolv-aero-usr-usdc/src/processor.ts:70-77 | accounts processed without a snapshot earn 0 and have zero before-fields |
| AeroUsdcProcessor.TransferPartyForfeitsAccrual | resolv-aero-usr-usdc/src/processor.ts:35-36 | a party whose stored snapshot would earn points earns none on the Transfer |
| AeroUsdcProcessor.Others | resolv-aero-usr-usdc/src/processor.ts:30-31 | the stored ids that are not parties |
| AeroUsdcProcessor.SnapshotsConsistent | resolv-aero-usr-usdc/src/processor.ts:39 | the new snapshots carry the processed ids and agree per id |
| AeroUsdcProcessor.Snapshots | resolv-aero-usr-usdc/src/processor.ts:29-38 | one latest snapshot per account, in list order |
| AeroUsdcProcessor.SnapshotsAppend | resolv-aero-usr-usdc/src/processor.ts:29-38 | the snapshots of two lists of accounts are those of the first followed by those of the second |
| AeroUsdcProcessor.UpsertedSnapshots | resolv-aero-usr-usdc/src/processor.ts:39 | upserting the latest snapshots of accounts covering every stored one leaves exactly those accounts, each with its latest snapshot |
| AeroUsdcProcessor.TransferStore | resolv-aero-usr-usdc/src/processor.ts:24-40 | after the Transfer upsert the store holds the old accounts plus the non-null parties, each with its latest snapshot |
| AeroUsdcProcessor.AeroPoints.constructor | resolv-aero-usr-usdc/src/processor.ts:20-23 | the store and the audit log start empty |
| AeroUsdcProcessor.AeroPoints.Process | resolv-aero-usr-usdc/src/processor.ts:64-115 | returns the latest snapshot and logs its record; the store is not read |
| AeroUsdcProcessor.AeroPoints.ProcessEach | resolv-aero-usr-usdc/src/processor.ts:29-38 | processes the accounts in order |
| AeroUsdcProcessor.AeroPoints.Upsert | resolv-aero-usr-usdc/src/processor.ts:39 | upserts the snapshots under their ids, keeping the others |
| AeroUsdcProcessor.AeroPoints.Reprocess | resolv-aero-usr-usdc/src/processor.ts:41-62 | every stored id is reprocessed with its stored snapshot and holds its latest one |
| AeroUsdcProcessor.AeroPoints.OnSwap | resolv-aero-usr-usdc/src/processor.ts:41-49 | Swap reprocesses every stored snapshot |
| AeroUsdcProcessor.AeroPoints.OnTimeInterval | resolv-aero-usr-usdc/src/processor.ts:50-62 | the interval reprocesses every stored snapshot |
| AeroUsdcProcessor.AeroPoints.OnTransfer | resolv-aero-usr-usdc/src/processor.ts:24-40 | the non-party stored snapshots are reprocessed with themselves, then the non-null parties with none; the store gains the parties and every id holds its latest snapshot |
| EulerProcessor.CalcPoints | resolv-euler-usr-eth/src/processor.ts:123-148 | zero when the block is not later, else supplyBalance × 30 × days × multiplier |
| EulerProcessor.LatestSnapshot | resolv-euler-usr-eth/src/processor.ts:110-121 | id = account, stamped now, supplyBalance × 10^18 = convertToAssets(shares) |
| EulerProcessor.RecordForSpec | resolv-euler-usr-eth/src/processor.ts:83-108 | the points of the passed, else stored, snapshot, else 0 with zero before-fields; the after-side is the latest snapshot |
| EulerProcessor.Emitted | resolv-euler-usr-eth/src/processor.ts:96-105 | one record per processed account, in order |
| EulerProcessor.IntervalAccruesStored | resolv-euler-usr-eth/src/processor.ts:68-80 | on the interval each account accrues the points of its own stored snapshot |
| EulerProcessor.LatestConsistent | resolv-euler-usr-eth/src/processor.ts:78 | the new snapshots carry the processed ids and agree per id |
| EulerProcessor.EulerPoints.constructor | resolv-euler-usr-eth/src/processor.ts:20-23 | the store and the audit log start empty |
| EulerProcessor.EulerPoints.ProcessAccount | resolv-euler-usr-eth/src/processor.ts:83-108 | returns the latest snapshot and logs its record |
| EulerProcessor.EulerPoints.ProcessEach | resolv-euler-usr-eth/src/processor.ts:64-65 | processes the accounts in order |
| EulerProcessor.EulerPoints.Upsert | resolv-euler-usr-eth/src/processor.ts:66 | upserts the snapshots under their ids |
| EulerProcessor.EulerPoints.ProcessSingle | resolv-euler-usr-eth/src/processor.ts:24-32 | one account is processed with no snapshot passed and upserted |
| EulerProcessor.EulerPoints.OnDeposit | resolv-euler-usr-eth/src/processor.ts:24-32 | the owner gets its latest snapshot; the record accrues its stored snapshot |
| EulerProcessor.EulerPoints.OnBorrow | resolv-euler-usr-eth/src/processor.ts:33-41 | the same for the borrowing account |
| EulerProcessor.EulerPoints.OnLiquidate | resolv-euler-usr-eth/src/processor.ts:42-50 | the same for the violator |
| EulerProcessor.EulerPoints.OnRepay | resolv-euler-usr-eth/src/processor.ts:51-59 | the same for the repaying account |
| EulerProcessor.EulerPoints.OnTransfer | resolv-euler-usr-eth/src/processor.ts:60-67 | exactly the non-null parties are processed and upserted |
| EulerProcessor.EulerPoints.OnTimeInterval | resolv-euler-usr-eth/src/processor.ts:68-80 | every stored snapshot is reprocessed with itself passed in; each id holds its latest snapshot |
| HoldingRlpConfig.Constants | resolv-holding-rlp-eth/src/config.ts:5-6 | 15 daily points, one day in ms |
| HoldingRlpConfig.GetTokenPrice | resolv-holding-rlp-eth/src/config.ts:12-26 | USR and RLP are 1, USDC the feed price; anything else throws |
| HoldingRlpConfig.RlpPricedAtOne | resolv-holding-rlp-eth/src/config.ts:9-20 | any spelling of the configured RLP address is priced at 1 |
| HoldingRlpProcessor.CalcPoints | resolv-holding-rlp-eth/src/processor.ts:82-107 | zero when the block is not later, else usdValue × 15 × days × multiplier |
| HoldingRlpProcessor.AccountSnapshotAt | resolv-holding-rlp-eth/src/processor.ts:109-122 | id = account, stamped now, balance × 10^decimals = balanceOf |
| HoldingRlpProcessor.RlpHoldingValuedAtBalance | resolv-holding-rlp-eth/src/processor.ts:109-122 | bound to RLP, a holding is worth its balance and pricing never throws |
| HoldingRlpProcessor.RecordForSpec | resolv-holding-rlp-eth/src/processor.ts:52-80 | the points of the passed, else stored, snapshot, else 0 with zero before-fields |
| HoldingRlpProcessor.Emitted | resolv-holding-rlp-eth/src/processor.ts:66-78 | one record per processed account, in order |
| HoldingRlpProcessor.SnapshotsConsistent | resolv-holding-rlp-eth/src/processor.ts:35 | the new snapshots carry the processed ids and agree per id |
| HoldingRlpProcessor.HoldingPoints.constructor | resolv-holding-rlp-eth/src/config.ts:10 | the store and the audit log start empty, with the token's decimals |
| HoldingRlpProcessor.HoldingPoints.ProcessAccount | resolv-holding-rlp-eth/src/processor.ts:52-80 | returns the new snapshot and logs its record |
| HoldingRlpProcessor.HoldingPoints.ProcessEach | resolv-holding-rlp-eth/src/processor.ts:30-34 | processes the accounts in order |
| HoldingRlpProcessor.HoldingPoints.Upsert | resolv-holding-rlp-eth/src/processor.ts:35 | upserts the snapshots under their ids |
| HoldingRlpProcessor.HoldingPoints.OnTransfer | resolv-holding-rlp-eth/src/processor.ts:25-36 | exactly the non-null parties are processed and upserted; an unsupported token throws with nothing changed |
| HoldingRlpProcessor.HoldingPoints.OnTimeInterval | resolv-holding-rlp-eth/src/processor.ts:37-49 | every stored snapshot is reprocessed with itself passed in; an unsupported token throws with nothing changed; an empty store changes neither the store nor the log |

## Findings

| source | as written | input that shows it | evidently intended | confidence | as-written member | corrected member |
|---|---|---|---|---|---|---|
| resolv-curve-eth/src/processor.ts:193 | `getAccountSnapshot` calls `config.getBalances(ctx)`, but the `Config` records (resolv-curve-eth/src/config.ts:6-10, 16-33) define no `getBalances`, so the call throws a TypeError | any AddLiquidity, RemoveLiquidity or Transfer with a non-null party in either configured pool | read the pool's two token totals and value the account's pro-rata share | not executed | CurveProcessor.AccountSnapshotAsWritten | CurveProcessor.AccountSnapshotAt |

`CurveProcessor.GetBalancesMissingThrows` proves that the code as written
throws wherever the corrected valuation succeeds. The rest of the Curve model
uses the corrected valuation. It takes the two token totals as inputs from
the block (`Chain.token0Total`, `Chain.token1Total`).

## Left out

- Numeric precision: BigDecimal and JS number rounding are not modelled. Amounts are `real`, and the only rounding kept is Curve's `toFixed(0)`.
- `scaleDown` is exact division by a power of ten.
- `toLowerCase` is modelled on ASCII letters only.
- OnHyperliquidTransfer: the bridge address is a parameter `bridge`. resolv-boosts/src/config.ts does not define `ARB_USDC`, `HYPERLIQUID_BRIDGE` or `HYPERLIQUID_NETWORK`, although resolv-boosts/src/hyperliquid_processor.ts:3 imports them. The event filter at resolv-boosts/src/hyperliquid_processor.ts:22 matches the recipient in any letter case; the model compares `to` with `bridge` exactly, so the caller passes both in one case.
- Concurrency: the `async-mutex` single flight is modelled as a plain call.
- `Promise.all` ordering: the source does not fix the order of the audit records within one handler. The model emits them in list order.
- `Promise.all` rejection: the source reports the rejection that happens first in time. The model reports the first failing element by position (`Common.FirstError`).
- ProcessAll, UpdateAll (Uniswap and Slipstream): the error passed on is the first failure other than a burn by list position (`FirstThrow`); the source rejects with whichever such failure happens first in time. Whether an error is passed on at all is the same in both.
- Chain RPCs are fields of the `Block`/`Chain` values, not calls:
  - `positions`, `ownerOf`, `balanceOf`, `totalSupply`, `getReserves`, `convertToAssets`, `getCode`, `decimals`;
  - the pool reads for `slot0` and `liquidity`.
- The Uniswap v3 SDK position math (`Pool`, `Position`, `pool_args.js`) is not modelled. The two token amounts of a position come from the block.
- `getPriceBySymbol` is a parameter: the USDC price at the block.
- Sentio SQL endpoint and `API_KEY`:
  - A page is a function from offset to response.
  - The key is a boolean.
  - A ghost bound on the page count stands for a finite table.
- `Date.now()` and `ctx.timestamp` are integer parameters.
- Logging and serialisation (`console.*`, `JSON.stringify(boosts)`) are left out.
- The `boosts` field of the audit records is modelled only for aero-usr-usdc (`AeroUsdcProcessor.PointUpdate.boosts`), whose boost store is modelled. The other deployments take the multiplier as a parameter and leave the field out.
- Audit records hold reals where the source writes decimal strings.
- The fire-and-forget `fetchBoosts()` at module load is not modelled; a model user calls `FetchBoosts` explicitly.
- Boost multipliers of the Uniswap, Slipstream, Curve, Euler and RLP-holding deployments are a multiplier-by-account parameter. Their own `boosts.ts` files are not part of this model.
- The Aerodrome USR/USDC rate, day length and token decimals are a `Params` value. `resolv-aero-usr-usdc/src/config.ts` is not part of this model. The Base config with the same names holds only constants.
- AeroUsdcProcessor.AeroPoints: its handlers require a positive LP total supply. With a zero supply, the source divides by zero into BigDecimal NaN/Infinity, which `real` cannot represent.
- AeroUsdcProcessor.RecordFor: points for an account without a snapshot are 0, not the source's array `[0, 0, 0]`.
- CurveProcessor and HoldingRlpProcessor compute the account-independent part of a valuation once per handler: the config and pool-info lookups and the token prices. The source repeats it per account with the same inputs, so the result is the same.
- Top-level `await` initialisation of the config tables is not modelled. The Uniswap pool table and the Curve gauge start blocks enter as parameters.
- Pool-state bookkeeping after IncreaseLiquidity and DecreaseLiquidity (`updatePoolArgs`) is not modelled, because it feeds only the position math, which is also left out.
- OnTimeInterval (CurveProcessor.CurvePoints): the key set is stated to be unchanged only when every stored id is the composite id of its own account. An id whose account part contains a dot would be re-upserted under a different id, as `split(".")[1]` does.
- Aerodrome USR/USDC boost refresh: the deployment never calls `updateBoosts`, so the boost map it reads is always empty. The model takes the map from the block, which also covers a filled map.
