# Cosmos validator monitor: a Dafny model of its decision core

This project models the decision logic of a Discord bot that watches Cosmos-SDK
validators. Three parts are modelled.

- **The repository** (`db_manager.dfy`, module `DbManager`). This is the SQLite store of
  registered validators and of per-channel governance/upgrade preferences. The class
  `Database` holds both tables as sequences of rows in insertion order. Its invariant
  `Valid()` is the schema's two UNIQUE constraints. Every mutator is a method whose
  postcondition gives the new tables exactly. Every query is a function that reads
  the tables.
- **The status resolver** (`api_helpers.dfy`, module `ApiHelpers`). This is what
  `get_validator_info` does once the staking reply is in hand:
  - map the jailed flag and bond status to a display status;
  - decide whether a missed-block count and an uptime are available;
  - turn every failure into one of three error kinds.

  The module also holds the text progress bar. The HTTP reply is an input
  (`StakingReply`). Address derivation is the uninterpreted function parameter `derive`.
- **The health monitor** (`monitoring_tasks.dfy`, module `MonitoringTasks`). This is the
  `MonitoringTasks` cog:
  - `Classify` is the one-alert priority chain: jailed, then released from jail, then
    an upward crossing of 50 missed blocks;
  - `CheckStep` is one check with its early returns and its write-back;
  - class `Monitor` keeps the two slashing caches and an `outbox` of delivered alerts.
    Its methods are the cache-refresh loop, one check, and one full monitoring pass.

  Fetch outcomes, whether the alert channel exists and whether sending succeeds are
  method inputs.

`wrappers.dfy` (Option, Result, and the outcome of a numeric conversion) and `seqs.dfy`
(Filter, Map and Distinct over sequences: the WHERE, SELECT and DISTINCT of the queries)
are helpers.

Notes on what the code does, where a reader might expect otherwise:

- The code keeps no `API_ERROR` or `WARNING_MISSED_BLOCKS` status.
- It sends no "API recovered", "missed blocks recovered" or plain status-change alert.
- When the chain is unknown or the resolver fails, it returns without writing to the
  database. So the stored row keeps its old values; it does not become `API_ERROR`.
- The stored status is the resolver's display status (`Bonded`, `JAILED`, a raw bond
  string, ...).
- A missed-blocks alert needs only `old < 50 <= new`. The extra `new > old` test in
  the code is implied (see `Classify`).
- `pubkey_to_consensus_address` hashes all decoded key bytes. It does not tell 32-, 33-
  and 36-byte keys apart.
- A non-2xx staking reply raises `HTTPStatusError`. That error is not an
  `httpx.RequestError`, so it is reported as "An unexpected error occurred.", not as a
  network error or "Validator not found ...".
- The missed-block sentinel -1 counts as "below threshold" for the next poll. So one
  poll that cannot read the counter re-arms the missed-blocks alert
  (`SentinelReArmsMissedBlocksAlert`).

## Model

| member | source | states |
|---|---|---|
| `DbManager.Database.constructor` | db_manager.py:6-37 | A fresh database has both tables, empty, and satisfies the UNIQUE constraints. |
| `DbManager.Database.AddValidator` | db_manager.py:39-57 | Succeeds iff the address is not yet in the table, under any user or chain. It then appends one row with status UNKNOWN, missed blocks -1, notifications on and the given moniker (None by default); otherwise nothing changes. The uniqueness invariant is kept. |
| `DbManager.WithoutMatching` | db_manager.py:63 | The DELETE keeps exactly the rows that do not match (user, chain, address). |
| `DbManager.RemoveDeletesAtMostOne` | db_manager.py:59-67 | With unique addresses the DELETE removes at most one row. It removes none iff no row matches. |
| `DbManager.FilterKeepsUnique` | db_manager.py:16 | Deleting or selecting rows keeps addresses unique. |
| `DbManager.FilterKeepsUniqueKeys` | db_manager.py:33 | Selecting settings rows keeps their (channel, chain) keys unique. |
| `DbManager.Database.RemoveValidator` | db_manager.py:59-67 | The table becomes the non-matching rows in their old order. The result is true iff a row matched, and then exactly one row is gone. Settings are untouched. |
| `DbManager.Database.GetUserValidators` | db_manager.py:69-76 | Returns exactly the summaries of that user's rows, each once when addresses are unique. |
| `DbManager.Database.GetUserValidatorsByChain` | db_manager.py:78-88 | Returns exactly the summaries of that user's rows on that chain, each once when addresses are unique. |
| `DbManager.ByChainRefinesUserListing` | db_manager.py:69-88 | The by-chain listing equals the user listing filtered by chain, in the same order. |
| `DbManager.Database.GetUserValidatorDetails` | db_manager.py:90-100 | Returns one record or None. It is Some iff a row matches (user, chain, address), and the record is that row's details. |
| `DbManager.Database.GetAllValidatorsToMonitor` | db_manager.py:103-110 | Returns exactly the entries of rows whose notifications are enabled, each once when addresses are unique. |
| `DbManager.UpdateStatusRows` | db_manager.py:112-129 | Only rows matching (chain, address) change, whatever their user. Those rows get the new status, missed blocks and check time. Their moniker is replaced iff a non-empty one is given. Identity columns and the flag never change, and addresses stay unique. |
| `DbManager.Database.UpdateValidatorStatus` | db_manager.py:112-129 | The table becomes `UpdateStatusRows` of the old one. Settings are untouched. |
| `DbManager.NotificationRows` | db_manager.py:131-142 | Only the flag of the rows matching (user, chain, address) changes. |
| `DbManager.Database.SetValidatorNotifications` | db_manager.py:131-142 | Sets the flag on matching rows. Returns true iff a row matched. |
| `DbManager.Upserted` | db_manager.py:146-171 | After the upsert the given row is present, and every row with that (channel, chain) equals it. A conflicting row is rewritten in place; otherwise one row is appended. Other rows are unchanged and key uniqueness is kept. |
| `DbManager.UpsertLeavesOneRow` | db_manager.py:26-34 | With the UNIQUE(channel, chain) constraint, exactly one row for the key remains after an upsert. |
| `DbManager.UpsertIdempotent` | db_manager.py:146-166 | Repeating the same preference call leaves the table unchanged. |
| `DbManager.Database.SetChainNotificationPreference` | db_manager.py:146-171 | The settings table becomes `Upserted` of the old one, the validators table is untouched, and the result is true. |
| `DbManager.Database.GetChainNotificationPreferences` | db_manager.py:173-192 | Returns exactly the preferences of that chain's rows with the gov or the upgrade flag set, each once when (channel, chain) keys are unique. |
| `DbManager.Database.GetAllChainNotificationChains` | db_manager.py:194-204 | Each chain having a row with a flag set appears exactly once, and no other chain appears. |
| `ApiHelpers.ProgressBar` | utils/api_helpers.py:13-20 | The bar is `[`, then max(length, 0) cells (20 by default), then `]`. Outside [0, 100] every cell is blank. Otherwise the first floor(length*p/100) cells are full blocks and the rest are light shades. |
| `ApiHelpers.FilledLengthBounds` | utils/api_helpers.py:18-19 | For 0 <= p <= 100 the filled count is between 0 and the length. |
| `ApiHelpers.FilledLengthMonotone` | utils/api_helpers.py:18 | A larger percentage never fills fewer cells. |
| `ApiHelpers.DisplayStatus` | utils/api_helpers.py:61-66 | A jailed validator shows JAILED whatever its bond status. Otherwise the three known bond statuses get short names and any other string passes through. The result is JAILED iff the validator is jailed or its raw status is the string JAILED. |
| `ApiHelpers.SigningStats` | utils/api_helpers.py:71-87 | No lookup (unsupported chain or an empty cache) gives -1 and no uptime. A missing consensus key is a data-format error. An address that is None, empty or not cached gives -1. Otherwise the count is the cached `missed_blocks_counter` (default -1) and the window is `signed_blocks_window` (default 0). The result is an error iff one of them does not convert. An uptime is present iff window > 0 and count >= 0, and it equals (window - count)/window*100. The only error is a data-format error. |
| `ApiHelpers.UptimeBounds` | utils/api_helpers.py:83-87 | For a count within the window, uptime is in [0, 100]. It is 100 exactly when nothing was missed. |
| `ApiHelpers.GetValidatorInfo` | utils/api_helpers.py:37-108 | A request failure, and only that, gives a network error. A non-2xx reply gives the generic error. Bad JSON or a missing validator gives "not found or invalid". For a validator object, the call succeeds iff moniker and jailed flag are present, the bond status is present unless jailed, the shares convert, and `SigningStats` succeeds; a `SigningStats` error is the call's error. On success the record carries the reply's moniker and jailed flag, JAILED or the mapped bond status, shares/10^decimals, and the `SigningStats` result. With empty caches missed blocks are -1. |
| `ApiHelpers.ErrorMessage` | utils/api_helpers.py:100-108 | A message starts with "Network error: " iff the error is a network error. The rest of such a message is the error's detail. |
| `ApiHelpers.ErrorMessageInjective` | utils/api_helpers.py:100-108 | Different errors give different messages. |
| `MonitoringTasks.Classify` | cogs/monitoring_tasks.py:113-124 | The jailed alert fires iff new is JAILED and old is not. Recovery fires iff old is JAILED and new is not. The missed-blocks alert fires iff neither applies and old < 50 <= new. At most one alert fires, and an unchanged reading gives none. |
| `MonitoringTasks.CheckStep` | cogs/monitoring_tasks.py:100-155 | An unknown chain or a failed resolution gives no alert and no write. Otherwise the alert is `Classify` of the stored and fresh values. The fresh record is written iff no alert is due or the channel exists. The alert is delivered iff the channel exists and the send succeeds; a failed send does not stop the write. |
| `MonitoringTasks.StaysAtOrAboveThreshold` | cogs/monitoring_tasks.py:121-155 | Once a count >= 50 is stored, the stored count stays >= 50 until a check stores one below 50. |
| `MonitoringTasks.MissedBlocksAlertNeedsDropBelow` | cogs/monitoring_tasks.py:121-155 | After a check that stored a count >= 50, the missed-blocks alert is chosen again only if some check in between stored a count below 50. |
| `MonitoringTasks.SentinelReArmsMissedBlocksAlert` | cogs/monitoring_tasks.py:121-155 | Example: the series 60, -1, 60 fires the missed-blocks alert twice, because the -1 sentinel is stored. |
| `MonitoringTasks.CheckStoresNext` | cogs/monitoring_tasks.py:150-155 | After checking a validator, its row holds the (status, missed blocks) that `Next` gives from the stored snapshot and the check's inputs, so the successive-check lemmas speak about the stored row. |
| `MonitoringTasks.IndexByAddress` | cogs/monitoring_tasks.py:67-69 | The cache is None iff some item has no address. Otherwise its keys are exactly the items' addresses. |
| `MonitoringTasks.IndexKeepsLastItem` | cogs/monitoring_tasks.py:67-69 | Later duplicates overwrite earlier ones: each address maps to the last item that carries it. |
| `MonitoringTasks.RefreshedCaches` | cogs/monitoring_tasks.py:56-73 | If either fetch fails or an item lacks an address, both caches of the chain are empty. Otherwise they are the params object (or {}) and the address index. Every cached entry is keyed by its own address. |
| `MonitoringTasks.FindChain` | cogs/monitoring_tasks.py:88 | Finds a configuration of that name iff one exists. |
| `MonitoringTasks.Resolve` | cogs/monitoring_tasks.py:88-98 | There is no resolution exactly when the chain is not configured. A configured chain is resolved against its own caches (empty when absent): a success carries exactly the missed blocks and uptime `SigningStats` gives for that chain's configuration and caches. A request failure gives the network error and a non-2xx reply the generic error. A well-formed document succeeds with -1 missed blocks and no uptime when those caches do not permit the lookup, in particular when they were never filled. A count other than -1 implies the chain is configured with missed-block support and both its caches exist. |
| `MonitoringTasks.PassLeavesDisabledRowsAlone` | cogs/monitoring_tasks.py:76-78 | A monitoring pass over the monitored entries never changes a row whose notifications are disabled. This holds because addresses are unique. |
| `MonitoringTasks.PassNotifiesAtMostOncePerEntry` | cogs/monitoring_tasks.py:76-78 | A pass only appends to the outbox, and at most one alert per validator checked. |
| `MonitoringTasks.Monitor.constructor` | cogs/monitoring_tasks.py:23-30 | The cog starts with empty caches and nothing sent. |
| `MonitoringTasks.Monitor.RefreshSlashingCaches` | cogs/monitoring_tasks.py:52-73 | Each chain with missed-block support gets the caches of its own fetch outcome. The caches of every other name are left as they were. |
| `MonitoringTasks.Monitor.CheckAndNotifyValidatorStatus` | cogs/monitoring_tasks.py:84-155 | The table and outbox become `Check` of the old ones: `CheckStep`'s decision, applied with `update_validator_status` and a send. The caches are untouched. |
| `MonitoringTasks.Monitor.CheckEntries` | cogs/monitoring_tasks.py:75-78 | Each monitored entry is checked once, in order; the result is `Pass` over the entries, and the caches and settings are untouched. |
| `MonitoringTasks.Monitor.MonitorValidators` | cogs/monitoring_tasks.py:48-78 | The caches are refreshed as above. Then the entries `get_all_validators_to_monitor` returned before the pass are each checked once, in order (`Pass`). |

## Left out

- Governance and upgrade monitoring: `monitor_governance` and `monitor_upgrades` are empty stubs in the code, so there is nothing to model.
- HTTP, timeouts, the async task loops, their intervals, `wait_until_ready` and `get_latest_block_height`: network and scheduling. Fetch outcomes are inputs.
- The body of `pubkey_to_consensus_address` (base64, SHA-256, bech32): it calls libraries that are not part of this model. It is the parameter `derive`.
- Float formatting of the total stake and the uptime, and float rounding: numbers are exact reals, so a NaN percentage (blank bar in Python) is not modelled.
- Discord embeds, titles, colours, `fetch_user` and mentions: a delivered alert is a `Notification` record. A failure of `fetch_user` is folded into "send fails".
- `_chain_api_error_status`: it is initialised but never read.
- SQLite connections, row ids and SQL text. Result order is assumed to be insertion order (DISTINCT: first occurrence); SQLite does not promise an order without ORDER BY.
- DbManager.Database.SetChainNotificationPreference: always returns true, because database failures other than constraint handling (the `except Exception` branch) are not modelled.
- DbManager.Database.AddValidator: only the UNIQUE violation is modelled; NULL arguments (NOT NULL violations) cannot occur, because the model's columns are not nullable.
- `datetime.now()`: the check time is an input.
- Chain configuration: a configuration is a record. A missing `rest_api_url`, `valcons_prefix` or `token_symbol` key (a KeyError outside the resolver's `try`) is not modelled. `decimals` is a natural number.
- MonitoringTasks.Monitor.RefreshSlashingCaches: the params cache briefly holds new params while the signing-info request is in flight; the model writes both caches of a chain at once.
- ApiHelpers.SigningStats: a cached signing-info item is always treated as present (Python truthiness of a non-empty dict), since every cached item carries its `address` key.
- ApiHelpers.GetValidatorInfo: JSON values of the wrong type are not modelled. In Python a null `missed_blocks_counter` or `delegator_shares`, or a `validator` that is not an object, raises `TypeError` or `AttributeError`, which the code reports as "An unexpected error occurred."; the model's typed reply cannot express these inputs, so its only generic-error case is a non-2xx reply.
