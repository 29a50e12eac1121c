# Infoblox Universal DNS-01 authenticator — verified model

The certbot plugin `certbot_dns_infoblox_universal` answers a DNS-01
challenge by creating a TXT record in an Infoblox Universal DDI zone. Later it
deletes that record. This project models the plugin's `Authenticator`:

- **Lazy client.** The SDK client is built on first use and reused after that.
- **Zone resolution.** The view name comes from the credentials, or is
  `"default"`. The view id is the first returned view's id. The zone is the
  first listed zone of that view.
- **Record request.** A fixed-shape TXT request, ttl 300. Its `name_in_zone`
  is the leftmost label of the validation name.
- **Handle list.** `infotxts` holds created record ids. `_perform` appends
  one. `_cleanup` deletes while iterating over the same list it removes from.

The vendor SDK is replaced by its answers and its effects:

- The view listing is a `seq<View>` and the zone listing a `seq<Zone>`.
- The id of the created record is a parameter.
- The request body submitted for creation is returned by `Perform`.
- The delete calls, in order, are returned by `Cleanup`.
- The wall-clock timestamp of the record comment is a string parameter.

Modules:

- `InfobloxRecord` (record.dfy): the pure resolution and record building.
- `HandleList` (handles.dfy): Python's `list.remove`, and the even/odd
  position functions that say what the cleanup loop does.
- `CleanupLoop` (cleanup_loop.dfy): the state of the cleanup loop after
  each iteration, stated against the list it started from.
- `InfobloxAuthenticator` (authenticator.dfy): the `Authenticator` class, with
  fields `infoclient` and `infotxts`, and a ghost counter `clientsBuilt` of
  the clients constructed. `Cleanup` keeps the source's loop: an index into
  a list that shrinks under it.
- `InfobloxScenarios` (scenarios.dfy): concrete runs modelled on the test suite.

Three behaviours of the code are easy to miss:

- Each cleanup call deletes only the handles at even positions of the list
  and leaves the other half held (see Findings). A later call deletes some
  of those.
- The view lookup takes the first of any number of views returned.
- Resolution fails when the first zone of the view has an empty id. It does
  not go on to a later zone.

## Model

| member | source | states |
|---|---|---|
| InfobloxRecord.ViewName | certbot_dns_infoblox_universal/dns_infoblox_universal.py:71 | the view is the configured `view` when present and non-empty, otherwise "default"; never empty |
| InfobloxRecord.NameInZone | certbot_dns_infoblox_universal/dns_infoblox_universal.py:96 | the result is a prefix of the name with no '.', and is followed in the name by '.' unless it is the whole name |
| InfobloxRecord.LeftmostLabel | certbot_dns_infoblox_universal/dns_infoblox_universal.py:96 | for a dot-free `head`, the zone-relative name of `head.rest` is `head` |
| InfobloxRecord.FirstInView | certbot_dns_infoblox_universal/dns_infoblox_universal.py:85-87 | returns the position of the first zone, in listing order, whose view is the view id; None exactly when no zone has that view |
| InfobloxRecord.BuildRecord | certbot_dns_infoblox_universal/dns_infoblox_universal.py:71-101 | no view returned: fails with ViewNotFound(view name), whatever the zones are; otherwise succeeds iff the first zone of the first view's id has a non-empty id, else ZoneNotFound(domain); on success the request (built by the helper InfobloxRecord.MakeRecord, lines 92-101) has name, type "TXT", rdata text, ttl 300, name_in_zone, comment and the chosen zone's id |
| InfobloxRecord.OnlyZoneOfViewChosen | certbot_dns_infoblox_universal/dns_infoblox_universal.py:85-90 | when exactly one listed zone belongs to the view, that zone is chosen wherever it stands in the listing |
| InfobloxRecord.ExampleScenarioRecord | tests/dns_infoblox_universal_test.py:42-54 | for the test's example.com challenge, with zone "zone-id" bound to the view "view-id" of view "test" as the test intends, the request has the given name, "TXT", "dummy-validation", zone "zone-id", ttl 300, name_in_zone "_acme-challenge" |
| HandleList.Remove | certbot_dns_infoblox_universal/dns_infoblox_universal.py:117 | list.remove shortens the list by one and takes out exactly one copy of x |
| HandleList.RemoveAt | certbot_dns_infoblox_universal/dns_infoblox_universal.py:117 | the copy list.remove takes out is the first occurrence: for the first position i holding x the result is s[..i] + s[i+1..] |
| HandleList.RemoveVisited | certbot_dns_infoblox_universal/dns_infoblox_universal.py:115-117 | removing the value found at the iteration index shifts the unvisited tail down by one; the visited part keeps its elements, and stays as it was when the value does not occur there |
| HandleList.EvensOddsLength | certbot_dns_infoblox_universal/dns_infoblox_universal.py:115-117 | of n handles, (n+1)/2 are at even positions and n/2 at odd ones |
| HandleList.EvensAt | certbot_dns_infoblox_universal/dns_infoblox_universal.py:115-117 | the k-th element of Evens is the element at position 2k |
| HandleList.OddsAt | certbot_dns_infoblox_universal/dns_infoblox_universal.py:115-117 | the k-th element of Odds is the element at position 2k+1 |
| HandleList.EvensOddsPartition | certbot_dns_infoblox_universal/dns_infoblox_universal.py:115-117 | the even- and odd-position handles together are the original handles, as a multiset |
| HandleList.DistinctOnce | certbot_dns_infoblox_universal/dns_infoblox_universal.py:115-117 | in a list of distinct ids each id occurs at most once |
| InfobloxAuthenticator.Authenticator.constructor | certbot_dns_infoblox_universal/dns_infoblox_universal.py:24-29 | a new authenticator has no client and an empty handle list |
| InfobloxAuthenticator.Authenticator.GetInfobloxClient | certbot_dns_infoblox_universal/dns_infoblox_universal.py:58-66 | builds a client (the helper InfobloxAuthenticator.NewClient, lines 60-64: the endpoint, the api_key and client name "certbot") only when none exists; afterwards returns the same client and builds nothing; at most one client is ever built |
| InfobloxAuthenticator.Authenticator.GetInfobloxRecord | certbot_dns_infoblox_universal/dns_infoblox_universal.py:68-101 | ensures the client exists, then returns BuildRecord of the credentials and the listings |
| InfobloxAuthenticator.Authenticator.Perform | certbot_dns_infoblox_universal/dns_infoblox_universal.py:103-109 | on successful resolution the created id is appended to the handle list and nothing else in it changes; on failure no request is made and the list is unchanged |
| InfobloxAuthenticator.Authenticator.Cleanup | certbot_dns_infoblox_universal/dns_infoblox_universal.py:111-117 | empty list: no delete call and the list stays empty; one handle: one delete and the list ends empty; in general exactly the even-position handles are deleted, in order, every handle ends deleted or held, half of the handles (rounded down) remain, and they are the odd-position handles (in order when ids are distinct) |
| InfobloxAuthenticator.Authenticator.CleanupAll | certbot_dns_infoblox_universal/dns_infoblox_universal.py:111-117 | corrected cleanup over a snapshot: every held handle is deleted in order and the list ends empty |
| CleanupLoop.VisitStart | certbot_dns_infoblox_universal/dns_infoblox_universal.py:113-115 | before the first iteration nothing is visited, deleted or stepped over and the index is 0 |
| CleanupLoop.VisitStep | certbot_dns_infoblox_universal/dns_infoblox_universal.py:115-117 | each iteration deletes the handle of the original list at the next unvisited position and keeps the loop state |
| CleanupLoop.VisitPair | certbot_dns_infoblox_universal/dns_infoblox_universal.py:115-117 | an iteration deletes the handle at position m of the original list and the index then steps over the one at m+1 |
| CleanupLoop.VisitLast | certbot_dns_infoblox_universal/dns_infoblox_universal.py:115-117 | the iteration at the last original position deletes that handle |
| CleanupLoop.VisitEnd | certbot_dns_infoblox_universal/dns_infoblox_universal.py:115 | when the index passes the live list, all of the original list has been visited and only stepped-over handles are left |
| CleanupLoop.VisitDone | certbot_dns_infoblox_universal/dns_infoblox_universal.py:115-117 | on loop exit the deleted ids are the even-position handles, the list holds the odd-position ones, and half of the handles remain |
| CleanupLoop.DistinctNotBefore | certbot_dns_infoblox_universal/dns_infoblox_universal.py:117 | with distinct ids, the visited id is not among the handles stepped over, so list.remove takes out the visited one |
| InfobloxScenarios.LazyClientScenario | tests/dns_infoblox_universal_test.py:21-29 | two client requests on a fresh authenticator build one client and return the same one, bound to the stage endpoint, the api_key and "certbot" |
| InfobloxScenarios.PerformCleanupScenario | tests/dns_infoblox_universal_test.py:59-91 | with zone "zone-id" bound to the view "view-id" of view "test" as the test intends, perform for example.com submits the expected TXT request and holds "txt-id"; cleanup deletes exactly "txt-id" and empties the list |
| InfobloxScenarios.MissingViewScenario | certbot_dns_infoblox_universal/dns_infoblox_universal.py:77-78 | with no view returned, perform fails with ViewNotFound("test") and holds no handle |
| InfobloxScenarios.TwoHandlesCleanupScenario | certbot_dns_infoblox_universal/dns_infoblox_universal.py:115-117 | with two held ids one call of the source's loop deletes the first and keeps the second; one call of the snapshot loop deletes both |
| InfobloxScenarios.RepeatedCleanupScenario | certbot_dns_infoblox_universal/dns_infoblox_universal.py:111-117 | with two held ids a first cleanup call deletes "txt-1" only and a second call deletes "txt-2", leaving the list empty |

## Left out

- SDK calls (ViewApi.list, AuthZoneApi.list, RecordApi.create/delete, Configuration, ApiClient): foreign HTTP clients. They are replaced by their answers and effects as described above. Transport errors, and failures of create or delete, are not modelled.
- The filter strings (`name=="…"`, `fqdn=="…"`) and `inherit="full"`: SDK query syntax. The listings stand for the answers to those queries.
- The tuple shape of the view listing's response (`result[1]`): it is abstracted to the returned view sequence.
- Credential loading (`_setup_credentials`, lines 48-56): certbot INI-file I/O. The credentials are a key-to-string map given at construction. An absent key reads as None.
- Plugin registration (`description`, `add_parser_arguments`, `more_info`): strings with no behaviour.
- The comment's timestamp (`time.strftime`): it reads the clock, so it is a string parameter.
- Logging, the propagation wait, and certbot driving the lifecycle: host-framework side effects.
- The ValueError messages: errors are the constructors ViewNotFound(view name) and ZoneNotFound(domain), not formatted text.
- The test suite's mocked listings as written (tests/dns_infoblox_universal_test.py:34-41): the zone mock names no view and the view id sits in the second tuple element, whereas the code reads `result[1][0].id` and matches `zone.view`. The scenarios instead bind zone "zone-id" to view "view-id", as the tests intend.
- Zone ids of None: an id that is falsy is modelled as the empty string.
- Python truthiness of ApiClient objects: such objects are always truthy, so "no client yet" is modelled as None.
- HandleList.Remove: requires the element to be in the list. Python raises ValueError otherwise, but the cleanup loop only removes an id it has just read from the list.
- InfobloxAuthenticator.Authenticator.Cleanup: when the same id is held more than once, the survivors are stated only as a multiset (the odd-position handles). Their order is stated only for distinct ids, because list.remove may then take out an earlier copy.

## Findings

| source | as written | input that shows it | evidently intended | confidence | as-written member | corrected member |
|---|---|---|---|---|---|---|
| certbot_dns_infoblox_universal/dns_infoblox_universal.py:115-117 | `_cleanup` iterates over `infotxts` while removing each visited id from it, so the iterator's index skips the next id | `infotxts = ["txt-1", "txt-2"]`: a single `_cleanup` call deletes only "txt-1" and leaves "txt-2" held; only a later call deletes it | each call deletes every held record and the list ends empty | high (not executed) | InfobloxScenarios.TwoHandlesCleanupScenario | InfobloxAuthenticator.Authenticator.CleanupAll |
