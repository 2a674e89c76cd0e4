# OVH order manager, modelled in Dafny

A model of the purchase logic of OVHOrderManager, a tool that watches the
availability of OVH dedicated (Kimsufi/eco) servers and orders one as soon as a
datacenter has stock. The model covers:

- the datacenter choice of `OVHManager._check_availability`: priority map built
  from the configured datacenter order, stable sort by priority (999 for
  unlisted codes), first entry whose availability is neither `"unavailable"`
  nor contains `"coming"`, search over every record of the configured plan
  code; and the legacy script's unsorted scan without the `"coming"` filter;
- the region lookup in the item's required configuration and the three
  configuration assignments (datacenter, OS image `none_64.en`, region);
- the fail-fast cart pipeline of the managed class (`run_task`,
  `_create_and_configure_cart`, `_checkout_cart`) including the cart deletion
  after a failed checkout, and `check_cart_exists` / `delete_cart`;
- the same pipeline in the legacy script, which never deletes a cart, and its
  `send_msg` combinator (`telegram and bark`);
- `CartCleaner.clean_all_carts` and `clean_expired_carts`.

The outside world is an oracle. Every outbound request, to the OVH API or to a
notification webhook, is a `Remote.Call` appended to a trace, and its reply is
the oracle entry at the same position (`Remote.ReplyAt`); a request past the
end of the oracle gets a transport failure. `Remote.Reply.Fail` is a raised
client error (`ovh.exceptions.APIError`, `requests.RequestException`); every
other reply is a successful body of a given shape. A successful reply of the
wrong shape stands for a Python `KeyError`/`TypeError`: the managed `run_task`
swallows it (`Aborted`), the legacy script does not (`Crashed`). A webhook
counts as delivered only on HTTP 200. A reply's shape is fixed by the request
it answers: the JSON body `[]` is `Stock([])` when it answers the availability
lookup and `CartIds([])` when it answers the cart listing, never the other.

Modules, one per concern: `Wrappers` (Option/Result), `Strings` (Python's
substring `in`), `Availability`, `Region`, `Remote` (calls, replies, oracle
sessions, fail-fast batches), `Notifier`, `Settings`, `Carts` (cart
probe/delete and the build pipeline), `Manager` (managed `run_task`), `Legacy`
(the stand-alone script), `Cleaner`.

Points of the code the model keeps as written:

- the legacy scan goes on to later records of the plan when a matching
  record has no bookable datacenter (OVHOrderManager.py:105-125);
- unlisted datacenters get the fixed rank 999, so with 999 or more configured
  codes they can sort before listed ones (`Availability.UnlistedSortLast`
  requires fewer than 999 codes);
- the managed run stops quietly when the chosen datacenter code is the empty
  string (`if not datacenter`) or when the cart id is empty or the item id is
  0 (`if not cart_id or not item_id`), after the corresponding requests have
  been issued.

## Model

| member | source | states |
|---|---|---|
| `Strings.ContainsIffOccurs` | src/managers/ovh_manager.py:66 | Python's `p in s` holds exactly when `p` occurs at some position of `s` |
| `Availability.PriorityMap` | src/managers/ovh_manager.py:47 | the priority map has exactly the configured codes as keys, each with a rank between 1 and the list length |
| `Availability.PriorityRanks` | src/managers/ovh_manager.py:47 | the code at position i gets rank i+1, and for a repeated code the last position wins |
| `Availability.SortByPriority` | src/managers/ovh_manager.py:56 | the sorted entries are ordered by non-decreasing rank and are a permutation (same multiset) of the record's entries |
| `Availability.SortStable` | src/managers/ovh_manager.py:56 | for every rank, the entries of that rank keep their original relative order (stable sort) |
| `Availability.UnlistedSortLast` | src/managers/ovh_manager.py:56 | with fewer than 999 configured codes, every listed datacenter sorts before every unlisted one and the unlisted ones keep their input order |
| `Availability.FirstAdmitted` | src/managers/ovh_manager.py:58-68 | the chosen index is admitted and every earlier entry is not; none is chosen exactly when no entry is admitted |
| `Availability.SelectNoneSpec` | src/managers/ovh_manager.py:49-76 | selection finds nothing exactly when no record of the plan code has an admitted candidate (non-matching records are never examined) |
| `Availability.SelectSomeSpec` | src/managers/ovh_manager.py:49-76 | a found datacenter is the first admitted candidate of the first matching record that has one; earlier matching records without one do not stop the search |
| `Availability.ManagedStockImpliesLegacyStock` | OVHOrderManager.py:105-125 | whenever the managed checker finds a datacenter, the legacy scan over the same records finds one too |
| `Availability.ScenarioPicksGra` | src/managers/ovh_manager.py:47-73 | with order `gra,fra`, `fra` unavailable and `gra` available, `gra` is chosen |
| `Availability.ComingSoonSplitsVariants` | OVHOrderManager.py:119 | a `comingSoon` entry ranked first is skipped by the managed checker (which picks the next) but bought by the legacy scan |
| `Region.RegionOfSpec` | src/managers/ovh_manager.py:105-110 | the region is the first allowed value of the last `region` field with a non-empty list, and None exactly when there is no such field |
| `Carts.BuildPlanLayout` | src/managers/ovh_manager.py:83-132 | the plan is the four opening requests, then datacenter, `none_64.en` and region assignments in that order, then one request per option in the configured order with quantity 1, `P1M`, `default` |
| `Remote.IssueAll` | src/managers/ovh_manager.py:120-132 | a batch issues a prefix of its calls, stops right after the first failure, and succeeds exactly when every reply succeeds |
| `Carts.OpenCartFailFast` | src/managers/ovh_manager.py:83-102 | create, assign, add item and read the requirements stop at the first raised error or body without the field the step reads: every earlier reply had its shape and the last did not; all four go out with the expected bodies exactly when the opening succeeds |
| `Carts.BuildCartFailFast` | src/managers/ovh_manager.py:78-138 | the build issues a non-empty prefix of its plan; it succeeds exactly when every step succeeds with the expected body, then with the provider's ids; otherwise it stopped at the first reply that raised or lacked the field read, every earlier one having its shape |
| `Carts.DeleteCart` | src/managers/ovh_manager.py:160-185 | a "Cart not found" probe error gives False with no delete; an existing cart gets exactly one delete and gives True if that succeeds; any other error propagates |
| `Notifier.SendBoth` | OVHOrderManager.py:39-82 | the requests are exactly Telegram (when a token is set) then Bark (when a URL is set and Telegram, if tried, answered 200); the result is true exactly when every configured channel answered 200; unconfigured channels send nothing and count as success |
| `Notifier.SendTelegram` | src/services/notification.py:7-34 | the managed `send_msg`: one POST when a token is set and nothing otherwise; true exactly when no token is set or Telegram answered 200 |
| `Manager.CheckoutSpec` | src/managers/ovh_manager.py:140-158 | checkout purchases exactly when both checkout requests succeed, whatever the notification returns, and then issues exactly those two requests and the Telegram order notification; otherwise the cart is deleted through `delete_cart` right after the failing request |
| `Manager.CheckoutCleansUp` | src/managers/ovh_manager.py:155-185 | after a failed checkout request the next request probes the same cart, followed by its delete exactly when the probe found it and by nothing else; the cleanup is what `delete_cart` reports, "not found" exactly when the probe says so |
| `Manager.RunTaskNoStock` | src/managers/ovh_manager.py:17-41 | without a chosen datacenter the run issues only the lookup; it ends as no-stock, or aborted when the reply is not a record list |
| `Manager.RunTaskEmptyCode` | src/managers/ovh_manager.py:20-22 | an empty datacenter code is announced and then dropped, with no cart request |
| `Manager.RunTaskAbortsBeforeCheckout` | src/managers/ovh_manager.py:17-26 | the run aborts exactly when a build step fails or an id is falsy, and then has issued only the lookup and a prefix of the build plan (no checkout): the whole plan when only an id is falsy, otherwise up to the first reply that raised or lacked the field read |
| `Manager.RunTaskPurchases` | src/managers/ovh_manager.py:17-32 | the run purchases exactly when every build and both checkout requests succeed, and then its requests are exactly lookup, announcement, build plan, checkout plan and order notification, in that order |
| `Manager.RunTaskCleansUp` | src/managers/ovh_manager.py:28-32 | a run failing at checkout had a complete build; right after the failing checkout request it probes the cart it built, deletes it exactly when the probe found it, issues nothing else, and reports what `delete_cart` returned |
| `Legacy.ScriptNoStock` | OVHOrderManager.py:88-129 | without a bookable datacenter the script issues only the lookup and no cart call; a non-list reply crashes it |
| `Legacy.ScriptNeverCleansUp` | OVHOrderManager.py:234-252 | whatever happens the script never probes, deletes or lists carts and never reports a cleanup |
| `Legacy.ScriptPurchases` | OVHOrderManager.py:131-259 | the script purchases exactly when every build and checkout request succeeds, and then its requests are exactly announcement, build plan, checkout plan and the order notification on both channels, in that order |
| `Legacy.ScriptCheckoutSpec` | OVHOrderManager.py:234-257 | the checkout block purchases exactly when both requests succeed, then adds exactly the order notification on both channels; a failed request ends it as aborted right after that request |
| `Legacy.ScriptCheckoutFails` | OVHOrderManager.py:234-252 | after a complete build, a failing checkout request ends the script as aborted immediately after it, with nothing deleted |
| `Legacy.ScriptAbortsInBuild` | OVHOrderManager.py:136-232 | when a build step fails the script has issued a prefix of the build plan ending at the first reply that raised or lacked the field read, and no checkout request; it is aborted when that reply raised a client error and crashes otherwise |
| `Legacy.ShippedScriptIsSilent` | OVHOrderManager.py:13-25 | with the script's own constants (no Telegram token, no Bark URL) a purchasing pass issues exactly lookup, build plan and checkout plan, with no webhook request |
| `Cleaner.DeleteStep` | src/utils/cart_cleaner.py:23-32 | a cart is a success exactly when `delete_cart` returned True, a failure when it returned False or raised |
| `Cleaner.ExpiredStep` | src/utils/cart_cleaner.py:56-71 | a failed details fetch is one failure with no further request; a cart is skipped exactly when its details were fetched and it is not expired; only expired carts go through `delete_cart` |
| `Cleaner.CleanAllCarts` | src/utils/cart_cleaner.py:8-39 | a failed list fetch is raised with no counts; otherwise every listed cart is visited and success + failed equals the number of carts |
| `Cleaner.CleanExpiredCarts` | src/utils/cart_cleaner.py:41-78 | a failed list fetch is raised with no counts; otherwise success + failed + skipped equals the number of carts, so success + failed is at most that number |
| `Cleaner.TalliesPartition` | src/utils/cart_cleaner.py:52-74 | every cart outcome lands in exactly one of success, failed, skipped |
| `Cleaner.SweepVisits` | src/utils/cart_cleaner.py:22-32 | cart i is handled from the session the earlier carts left, whatever their outcomes: one cart's error does not stop the sweep |
| `Cleaner.SweepAllProbesEveryCart` | src/utils/cart_cleaner.py:22-32 | `clean_all_carts` probes every listed cart exactly once, in list order |
| `Cleaner.SweepExpiredDeletesOnlyExpired` | src/utils/cart_cleaner.py:55-67 | `clean_expired_carts` deletes a cart only if the details fetched for it in the sweep said it had expired |

## Left out

- HTTP transport, authentication, URLs and JSON encoding: every request is an
  abstract `Remote.Call` and every reply an oracle entry.
- Logging and the text of every notification message; notifications carry an
  event (stock found, order placed) instead.
- The clock: the cart expiry (now + 2 hours, ISO format) is a parameter of
  `Manager.RunTask`.
- The endless loop of `main.py` and of the script's `main` (one pass every 5
  seconds) and `exit(0)`: a purchase ends a pass with `Purchased`.
- Loading settings from the environment (src/utils/config.py), including the
  quirk that an unset `OPTIONS` splits to `[""]`, one empty option code; the
  model takes the option list as given.
- `NotificationService` (src/services/notification.py) beyond its `send_msg`,
  which sends Telegram only and is modelled by `Notifier.SendTelegram`.
- Availability records or required-configuration fields missing a key: the
  datatypes always carry every key, so the `KeyError` those would raise is
  modelled only for replies of the wrong shape.
- A checkout GET body that is not JSON (the script calls `.json()` on it).
- `Availability.UnlistedSortLast`: holds only for fewer than 999 configured
  datacenter codes, because the source ranks unlisted codes at the fixed value
  999.
- `Cleaner.ExpiredStep`: a successful details reply of a shape other than cart
  details is read as a body without `expire` and `readOnly` (skipped), not as
  a body on which `.get` raises.
