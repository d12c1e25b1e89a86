# Multi-tenant construction-email back end, modelled in Dafny

The system receives construction-project e-mails for several contractor
organizations (tenants). An e-mail is parsed, filtered (auto-replies,
disallowed senders), its attachments are kept, a language model extracts
project data, and the e-mail is filed as an event under a project. The
project is found from a `project+ID@` recipient hint, from the extracted id,
from the sender's single active project, or else created. Everything lives in
a multi-tenant store with five tables: organizations, projects, events,
users and API usage. Around this sit a subscription-tier table with
usage-limit checks, input truncation for the language model, the reply
sender's content-type table, acknowledgment formatting and field check, a
keyword document classifier, and an onboarding script that creates a tenant.

The model is organised by the program's modules:

| Dafny module | file | models |
|---|---|---|
| `Wrappers` | wrappers.dfy | `Option`, `Result` |
| `Text` | text.dfy | Python string built-ins used by the code (`strip`, `lower`, `split`, `in`, `startswith`) |
| `Items` | items.dfy | store items (`dict` of attribute values), `.get`, `{**defaults, **data}` |
| `Keys` | keys.dfy | table key layout, composite keys, generated ids |
| `Queries` | queries.dfy | the semantics of the key-condition queries: prefix lookup, newest-first with limit, ascending listings |
| `Usage` | usage.dfy | the API-usage summary's totals and per-model breakdown |
| `Store` | store.dfy | `DynamoDBClient` as a class over five in-memory tables |
| `EmailParser` | email_parser.dfy | header helpers, allowlist, auto-reply test, HTML-to-text |
| `EmailProcessor` | email_processor.dfy | project resolution, metadata merge, record filters, batch counting |
| `Billing` | billing.dfy | tier table, `get_tier_config`, `check_usage_limits` |
| `AiClient` | ai_client.dfy | `sanitize_input` |
| `ReplySender` | reply_sender.dfy | content types, acknowledgment e-mail, required-field check |
| `PdfParser` | pdf_parser.dfy | `_identify_document_type` |
| `Onboarding` | onboarding.dfy | `onboard_client` and the argument checks of `main` |

Conventions:
- An item is a `map<string, Value>`. `Value` covers `None`, booleans, numbers, strings, lists and maps.
- Money is integer cents. The store writes it as an exact number: boto3 refuses a Python `float` with `TypeError` before any write, and the model states that refusal for the money defaults (see Findings).
- Timestamps are integer milliseconds.
- The clock (`now`), the `uuid4().hex` digits, event ids and dates are parameters.
- The outcomes of external services are parameters too: S3, the language model, Stripe, Cognito and SES.
- A table's key is computed from the stored item's own key attributes, as DynamoDB does. Caller data that overrides a key attribute therefore moves the item.
- A project id is carried as the value it was read as, string or not, and stored as such in the event's `project_id`. Where the source puts it in an f-string (the event partition, the `begins_with` prefix) the model uses its text, `Keys.IdText`.
- The store refuses with a `ValidationError`:
  - a key attribute that is missing, empty or of the wrong type;
  - an empty string given as a key value to a lookup or a query;
  - a write that sets an attribute a secondary index is keyed on to an empty string or a non-string. Those attributes are the organization's `email_address` and `subdomain`, the project's `client_email` and `status`, and the `organization_id` of events, users and usage records.
- The class invariant `Store.DbClient.Valid` says every item sits under the key its attributes spell.

## Model

| member | source | states |
|---|---|---|
| Items.Merge | src/shared/db_client.py:40-49 | `{**defaults, **data}`: every caller field wins, every other default is kept, no other key appears |
| Items.Get | src/lambdas/email_processor/handler.py:188 | `item.get(name)` is the attribute or `None` |
| Items.GetOr | src/shared/db_client.py:535 | `item.get(name, default)` is the attribute or the default |
| Keys.Composite | src/shared/db_client.py:159 | a composite key is both parts around one `#`, starting with the first part and `#` |
| Keys.CompositeInjective | src/shared/db_client.py:300 | when the first part has no `#`, the composite key determines both parts |
| Keys.CompositeCollision | src/shared/db_client.py:300 | an id containing `#` lets two different (tenant, project) pairs share an event partition |
| Keys.PrefixSelectsProject | src/shared/db_client.py:191-197 | the `begins_with(project_id + "#")` condition selects exactly the sort keys of that project id |
| Keys.ProjectSortKeyInjective | src/shared/db_client.py:159 | a project sort key names one project id and one creation time |
| Keys.NewProjectId | src/shared/db_client.py:155 | a new project id is `PROJ-` and 8 more characters, 13 in all, with no `#` |
| Keys.NewOrganizationId | src/shared/db_client.py:37 | a new organization id is `ORG-` and 12 more characters, 16 in all, with no `#` |
| Keys.KeyText | infrastructure/create_tables.py:68-71 | a key attribute reads iff it is present as a non-empty string, and then it is that string |
| Keys.ProjectKeyOf | infrastructure/create_tables.py:100-106 | a project item has a key iff `organization_id` and `project_id_created_at` are non-empty strings, and the key is those two |
| Keys.EmptyTenantRefused | infrastructure/create_tables.py:66-106 | an item whose `organization_id` is missing, empty or not a string has no organization key and no project key |
| Keys.EventKeyOf | infrastructure/create_tables.py:136-142 | an event item has a key iff its partition is a non-empty string and `event_timestamp` a number |
| Keys.IdText | src/shared/db_client.py:300 | the text an f-string gives a project id: a string as it is, a number as its decimal digits, and none for a list or map |
| Keys.UsageKeyOf | infrastructure/create_tables.py:185-191 | a usage item has a key iff its partition is a non-empty string and `timestamp` a number |
| Store.NewProjectItem | src/shared/db_client.py:155-169 | a new project's item in a named tenant is keyed `(org, pid#created_at)`, is `active`, and has `created_at == updated_at` and the generated `project_id`; the indexes accept it iff the caller's `client_email` is absent or a non-empty string |
| Store.NewOrganizationItem | src/shared/db_client.py:37-49 | a new organization is keyed by its generated id, and the indexes accept it iff the caller's e-mail and subdomain are absent or non-empty strings |
| Store.StampKeepsAttributes | src/shared/db_client.py:125 | adding `updated_at` to the updates adds no key attribute and changes nothing an index reads |
| Store.SameMillisecondEventsShareKey | src/shared/db_client.py:296-313 | two events of one project id (string or not) written in the same millisecond get the same key, so the second replaces the first |
| Store.SerializeAmounts | src/shared/db_client.py:46-53 | boto3's serializer: the put raises `TypeError` iff some amount is a `float`; otherwise every field is stored as its exact number |
| Store.AsWrittenOrganizationRefused | src/shared/db_client.py:46-47 | see Findings: with the `20.0`/`0.0` defaults, the put succeeds iff the caller replaces both and brings no float |
| Store.OrganizationAmountsStored | src/shared/db_client.py:46-47 | the defaults as exact amounts serialize, and to the organization defaults' 20.00 budget and zero spend |
| Store.FindByAttribute | src/shared/db_client.py:84-91 | a `Limit=1` index query finds an item with that attribute value iff one exists |
| Store.Upsert | src/shared/db_client.py:133-138 | `UpdateItem` with `SET` touches only the given key, merges the given fields, and creates a missing item from its key |
| Store.DbClient.constructor | src/shared/db_client.py:17-24 | the five tables start empty |
| Store.DbClient.CreateOrganization | src/shared/db_client.py:28-57 | the defaults overridden by `data` are stored under the item's own key and the generated id is returned; a bad key or an empty or non-string e-mail or subdomain is a `ValidationError` that writes nothing; no other table changes; the money defaults are the exact 20.00 and 0.00 (the source's floats are refused, see Findings) |
| Store.DbClient.GetOrganization | src/shared/db_client.py:59-73 | an empty id is a `ValidationError`; otherwise the item iff one is stored under that id, and it carries that id |
| Store.DbClient.GetOrganizationByEmail | src/shared/db_client.py:75-94 | an empty address is a `ValidationError`; otherwise an organization with that e-mail iff one exists |
| Store.DbClient.GetOrganizationBySubdomain | src/shared/db_client.py:96-115 | an empty subdomain is a `ValidationError`; otherwise an organization with that subdomain iff one exists |
| Store.DbClient.UpdateOrganization | src/shared/db_client.py:117-141 | an empty id, the key among the updates, or an empty or non-string e-mail or subdomain is a `ValidationError` that writes nothing; otherwise, with no existence check, the organization gets `updates` plus `updated_at` merged in and is created when missing; the caller's dict gains `updated_at` |
| Store.DbClient.CreateProject | src/shared/db_client.py:145-177 | one project item (defaults overridden by `data`) under its own key and the generated id returned; a bad key (an empty tenant id among them) or an empty or non-string client e-mail or status is a `ValidationError` that writes nothing; other tables unchanged |
| Store.DbClient.GetProject | src/shared/db_client.py:179-200 | an empty tenant id is a `ValidationError`; otherwise an item iff a project of that tenant has a sort key starting `pid#`, and then the first in sort order |
| Store.DbClient.GetProjectsByOrganization | src/shared/db_client.py:202-227 | an empty tenant id is a `ValidationError`; otherwise each project of the tenant once, filtered by status only when a non-empty status is given |
| Store.DbClient.GetProjectsByClient | src/shared/db_client.py:229-246 | an empty client e-mail is a `ValidationError`; otherwise each project with that client e-mail once, across all tenants |
| Store.DbClient.UpdateProject | src/shared/db_client.py:248-281 | an empty tenant id is a `ValidationError` and a missing project a `ValueError`, both writing nothing; otherwise the update behaves as `PatchProject` states on the first matching item |
| Store.DbClient.PatchProject | src/shared/db_client.py:264-276 | setting a key attribute, or an empty or non-string client e-mail or status, is a `ValidationError` that writes nothing; otherwise exactly the given fields change on that project and its key stays |
| Store.DbClient.CreateEvent | src/shared/db_client.py:285-317 | one event keyed `(org#pid, now)`, with `pid` the id's text and `project_id` the id as given, is added or replaced; a list or map id, whose text is not modelled, is refused with `UNRENDERED_ID` and writes nothing; a bad key or an empty or non-string `organization_id` is a `ValidationError` that writes nothing; no other event or table changes |
| Store.DbClient.GetProjectEvents | src/shared/db_client.py:319-340 | a limit below 1 is rejected; otherwise at most `limit` of that project's events, newest first, none newer left out |
| Store.DbClient.GetOrganizationEvents | src/shared/db_client.py:342-362 | the same over the tenant-wide index; an empty tenant id is a `ValidationError` |
| Store.DbClient.CreateUser | src/shared/db_client.py:366-388 | a missing `user_email` or `organization_id` raises `ValueError`, and an empty or non-string one a `ValidationError`, writing nothing; otherwise the defaults overridden by `data` are stored under the e-mail |
| Store.DbClient.GetUser | src/shared/db_client.py:390-404 | an empty e-mail is a `ValidationError`; otherwise the user iff one is stored under that e-mail |
| Store.DbClient.GetOrganizationUsers | src/shared/db_client.py:406-423 | an empty tenant id is a `ValidationError`; otherwise each user of the tenant once |
| Store.DbClient.UpdateUser | src/shared/db_client.py:425-449 | an empty e-mail, the key among the updates, or an empty or non-string `organization_id` is a `ValidationError` that writes nothing; otherwise `updates` plus `updated_at` are merged into the user, which is created when missing; the caller's dict gains `updated_at` |
| Store.DbClient.TrackApiUsage | src/shared/db_client.py:453-482 | one usage record keyed `(org#date, now)` with `ttl` 90 days after `now` in seconds; a bad key or an empty or non-string `organization_id` is a `ValidationError` that writes nothing; other tables unchanged |
| Store.DbClient.GetApiUsageByDate | src/shared/db_client.py:484-502 | every usage record of that tenant and day once, oldest first |
| Store.DbClient.GetApiUsageSummary | src/shared/db_client.py:504-552 | an empty tenant id is a `ValidationError`; otherwise the summary is over exactly the tenant's records from the last `days` days, oldest first, and it raises or reports as `Usage.Summarize` states |
| Queries.FirstProjectKey | src/shared/db_client.py:191-197 | the first matching key in sort order exists iff a match exists |
| Queries.FirstProjectMatchUnique | src/shared/db_client.py:191-197 | that first match is unique, so `get_project` is deterministic |
| Queries.FirstInSortOrder | src/shared/db_client.py:191-197 | the match that `Limit=1` returns is a match with the smallest sort key |
| Queries.SelectNewestFirst | src/shared/db_client.py:331-337 | `ScanIndexForward=False, Limit=n`: keys strictly descending by range key, at most `n`, none newer missed |
| Queries.ListAll | src/shared/db_client.py:221-224 | an unordered query lists every matching key once |
| Queries.NewestFirstReversed | src/shared/db_client.py:496-499 | a complete newest-first listing, reversed, is the ascending listing |
| Queries.ProjectEventsStrictlyNewestFirst | src/shared/db_client.py:331-337 | returned events have strictly decreasing timestamps |
| Usage.ParseIntText | src/shared/db_client.py:530 | `int(str(n)) == n` for every integer, negative ones included |
| Usage.IntExamples | src/shared/db_client.py:530 | `int("1.5")` and `int("+")` are not integers |
| Usage.ParseCentsText | src/shared/db_client.py:529 | an amount written with two decimals, sign included, reads back as the same cents under `float` |
| Usage.ParseCentsNegated | src/shared/db_client.py:529 | a leading minus negates the amount after it |
| Usage.PaddedText | src/shared/db_client.py:529-530 | whitespace around an amount or a count is ignored |
| Usage.FiveCents | src/shared/db_client.py:529 | `float("0.05")` is five cents |
| Usage.TwoPointsRejected | src/shared/db_client.py:529 | a second decimal point makes the text unreadable |
| Usage.CostValue | src/shared/db_client.py:529 | `float(cost)`: a number as it is, a readable string as the amount it spells, an unreadable string `ValueError`, and `TypeError` exactly for `None`, lists and maps |
| Usage.TokenValue | src/shared/db_client.py:530 | `int(tokens)`: a number as it is, a readable string as the integer it spells, an unreadable string `ValueError`, and `TypeError` exactly for `None`, lists and maps |
| Usage.TextAmountsReadAsNumbers | src/shared/db_client.py:529-530 | an amount or count stored as text reads the same as when stored as a number |
| Usage.EntryOf | src/shared/db_client.py:529-539 | a record reads iff its cost and count read and its model is hashable; the cost error comes before the count error; a missing cost or count is 0 and a missing `model` is `unknown` |
| Usage.ReadAll | src/shared/db_client.py:529-530 | one `sum(...)` pass succeeds iff every record reads, giving each record's value in order; otherwise it raises what the first unreadable record raises |
| Usage.Entries | src/shared/db_client.py:529-540 | every record read iff each one reads; otherwise the first cost error, else the first count error, else `TypeError` for an unhashable model |
| Usage.FirstIndex | src/shared/db_client.py:533-537 | the position of a model's first record: a record of that model, with none before it |
| Usage.FirstSeenModels | src/shared/db_client.py:533-537 | the models that occur, each once, and no other |
| Usage.FirstIndexOfPrefix | src/shared/db_client.py:533-537 | later records do not move a model's first position |
| Usage.FirstSeenOrder | src/shared/db_client.py:533-537 | the models are listed in the order of their first records |
| Usage.BreakdownRows | src/shared/db_client.py:533-540 | a breakdown has a row for each record's model, none for a model no record names, and no model twice |
| Usage.Breakdown | src/shared/db_client.py:533-540 | the loop builds one row per model, in the order the models first appear, as a dict keeps insertion order; each row's calls, tokens and cost are that model's sums; the rows add up to the totals |
| Usage.Summarize | src/shared/db_client.py:529-549 | raises iff some record cannot be read, with the error the cost pass, count pass and breakdown would raise in that order; otherwise `total_calls` is the record count, `total_tokens` and `total_cost` are the sums, and the breakdown is one row per model, in first-appearance order, summing to them |
| EmailParser.AngleMatchUnique | src/shared/email_parser.py:66 | the lazy `<(.+?)>` group has one end for a given start |
| EmailParser.FirstAngleMatch | src/shared/email_parser.py:66 | `re.search` finds the leftmost `<...>` match |
| EmailParser.ExtractEmailAddress | src/shared/email_parser.py:57-69 | without a `<...>` match the whole field is returned stripped |
| EmailParser.ExtractEmailAddressOfMatch | src/shared/email_parser.py:66-68 | with a match, the result is the stripped content of the leftmost one, without a line break |
| EmailParser.ExtractEmailAddressOfNamed | src/shared/email_parser.py:66-68 | `Name <address>` gives `address`, stripped |
| EmailParser.ExtractEmailAddressOfBare | src/shared/email_parser.py:69 | a field without `<` is returned stripped |
| EmailParser.FirstHintMatch | src/shared/email_parser.py:81 | `re.search` finds the leftmost `project+...@` match |
| EmailParser.ExtractProjectIdFromRecipient | src/shared/email_parser.py:72-84 | a hint iff there is a `project+X@` match, and the hint has no `@` |
| EmailParser.ExtractProjectIdOfMatch | src/shared/email_parser.py:81-83 | the hint is the stripped text between the leftmost `project+` and the next `@` |
| EmailParser.ExtractProjectIdOfPlusAddress | src/shared/email_parser.py:81-83 | `project+ID@domain` with a plain id gives that id back |
| EmailParser.FindHeader | src/shared/email_parser.py:38 | `msg.get` finds the first field whose name equals the asked name without regard to case, and none when no field does |
| EmailParser.Header | src/shared/email_parser.py:38 | a name no field carries, in any case, reads as `''` |
| EmailParser.HeaderIgnoresCase | src/shared/email_parser.py:38-45 | asking for `from` or `From` gives the same value |
| EmailParser.FindHeaderSameKey | src/shared/email_parser.py:38-45 | two names equal up to case find the same field |
| EmailParser.FirstFieldWins | src/shared/email_parser.py:38-45 | of repeated fields, the first one is read, whatever case either is written in |
| EmailParser.ExtractMetadata | src/shared/email_parser.py:28-54 | the sender and hint are the two helpers applied to the `From` and `To` values, missing headers read as `''` |
| EmailParser.LowerCaseFromIsRead | src/shared/email_parser.py:38 | a field written `from:` is the sender's field |
| EmailParser.MissingFromGivesEmptySender | src/shared/email_parser.py:38 | without a `From` field in any case, both the display field and the sender are empty |
| EmailParser.MissingToGivesNoHint | src/shared/email_parser.py:39 | without a `To` field in any case there is no hint |
| EmailParser.ValidateSender | src/shared/email_parser.py:179-199 | the loop returns true iff the list is empty or some entry, stripped and lower-cased, equals the lower-cased domain after the last `@` or is a parent domain of it |
| EmailParser.ValidateSenderIgnoresCase | src/shared/email_parser.py:192 | the sender's case does not matter |
| EmailParser.SenderDomainOf | src/shared/email_parser.py:192 | the domain is the text after the last `@` |
| EmailParser.AcceptedByEntry | src/shared/email_parser.py:194-198 | one matching entry is enough |
| EmailParser.SubdomainAccepted | src/shared/email_parser.py:197 | a subdomain of an allowed domain is accepted |
| EmailParser.LookalikeRejected | src/shared/email_parser.py:197 | a domain made of a non-empty text and then an allowed domain matches it iff that text ends in `.`; so `notexample.com` does not match `example.com` |
| EmailParser.ParseAllowedDomains | src/lambdas/email_processor/handler.py:106 | a domain is in the list iff it is non-empty and some comma-separated piece strips to it; every entry is stripped and has no comma |
| EmailParser.KeepNonEmptyMembers | src/lambdas/email_processor/handler.py:106 | the comprehension keeps exactly the non-empty stripped pieces |
| EmailParser.KeepNonEmptyConcat | src/lambdas/email_processor/handler.py:106 | the comprehension keeps the pieces' order |
| EmailParser.KeepNonEmptyOfClean | src/lambdas/email_processor/handler.py:106 | pieces already stripped and non-empty are kept as they are |
| EmailParser.AllowedDomainsRoundTrip | src/lambdas/email_processor/handler.py:106 | a list of clean domains joined with commas reads back as that list |
| EmailParser.IsAutoReply | src/shared/email_parser.py:202-237 | the two loops return true iff one of the four headers, looked up without regard to case, is non-empty or the lower-cased subject contains one of the five phrases |
| EmailParser.LowerCaseAutoSubmitted | src/shared/email_parser.py:215-221 | an `auto-submitted:` field written in lower case marks an auto-reply |
| EmailParser.OutOfOfficeSubject | src/shared/email_parser.py:224-235 | an "Out of Office" subject in any case is an auto-reply |
| EmailParser.PlainMailIsNotAutoReply | src/shared/email_parser.py:211-237 | an ordinary subject without the headers is not an auto-reply |
| EmailParser.CollapseSpace | src/shared/email_parser.py:143 | after `\s+` to one space: no two adjacent whitespace characters, and every whitespace character is a space |
| EmailParser.HtmlToText | src/shared/email_parser.py:131-145 | the text has no leading or trailing whitespace and no two adjacent whitespace characters |
| EmailParser.RemoveBlocksSkip | src/shared/email_parser.py:141-142 | the style and script removal keeps every character of a run without `<` |
| EmailParser.RemoveTagsSkip | src/shared/email_parser.py:143 | `<[^>]+>` removal keeps every character of a run without `<` |
| EmailParser.TagDropped | src/shared/email_parser.py:143 | a tag between two runs without `<` is removed and both runs are kept, in order |
| EmailParser.CollapseSingleSpaces | src/shared/email_parser.py:144 | text whose only whitespace is single spaces is left as it is |
| EmailParser.TaglessHtml | src/shared/email_parser.py:131-145 | text without `<` only has its whitespace collapsed and stripped |
| EmailParser.CleanTextUnchanged | src/shared/email_parser.py:131-145 | plain text without `<`, with single spaces and no space at either end, comes back unchanged |
| EmailProcessor.ActiveOnly | src/lambdas/email_processor/handler.py:212 | an item is kept iff it is in the list and its status is `active`; never longer than the list |
| EmailProcessor.ActiveOnlySingle | src/lambdas/email_processor/handler.py:212 | one item is kept iff it is active |
| EmailProcessor.ActiveOnlyConcat | src/lambdas/email_processor/handler.py:212 | the filter keeps the listing's order: filtering two runs is filtering each |
| EmailProcessor.ActiveListing | src/lambdas/email_processor/handler.py:209-216 | the active projects listed for a sender are exactly the sender's active projects; when there is one, it is the listed one |
| EmailProcessor.DetermineProjectId | src/lambdas/email_processor/handler.py:177-229 | hint, then AI id, then the single active client project, then creation; an empty sender makes the client query raise `ValidationError`; the id is returned as the hint, the extraction or the stored project gives it, string or not, and a missing stored one raises `KeyError`; only creation writes, adding exactly one project |
| EmailProcessor.ProjectsAfterAddsAtMostOne | src/lambdas/email_processor/handler.py:218-229 | resolving changes the projects table only by creation, which adds one project under its new key and leaves the others |
| EmailProcessor.EmptySenderFails | src/lambdas/email_processor/handler.py:207-210 | with no hint or extracted id, an empty sender address (no From header) makes resolution raise the store's `ValidationError` |
| EmailProcessor.ResolveBySender | src/lambdas/email_processor/handler.py:207-229 | an empty sender raises `ValidationError`; otherwise the stored `project_id` of the sender's single active project, as stored, or else a new project's id, written under the tenant |
| EmailProcessor.NumericAiIdUsed | src/lambdas/email_processor/handler.py:199-205 | a numeric id from the model names the project whose id is that number written out, and the number itself is the resolved id |
| EmailProcessor.StoredIdReturnedAsStored | src/lambdas/email_processor/handler.py:212-216 | the single active project's `project_id` is returned exactly as stored; without one, `KeyError` |
| EmailProcessor.UnrenderedAiIdFallsThrough | src/lambdas/email_processor/handler.py:200-229 | a list or map from the model names no project, so resolution goes on to the sender's projects |
| EmailProcessor.NewProjectKey | src/lambdas/email_processor/handler.py:218-229 | the created project is keyed under the tenant and the generated id, and the indexes accept it iff the sender is non-empty |
| EmailProcessor.MissingHintFallsThrough | src/lambdas/email_processor/handler.py:188-205 | a hint naming a missing project falls through to the AI id |
| EmailProcessor.AmbiguousClientCreates | src/lambdas/email_processor/handler.py:207-229 | zero or several active projects for the sender lead to creation |
| EmailProcessor.NewProjectFields | src/lambdas/email_processor/handler.py:218-226 | the new project's client e-mail, client name, status and `Unnamed Project` default |
| EmailProcessor.MetadataPatch | src/lambdas/email_processor/handler.py:240-254 | the name is replaced only over an empty or `Unnamed Project` name; address and people are overwritten when non-empty; values come from the extraction |
| EmailProcessor.UpdateProjectMetadata | src/lambdas/email_processor/handler.py:232-258 | an empty patch makes no call; a missing project raises `ValueError`; otherwise the patch and `updated_at` are merged into the project |
| EmailProcessor.PatchUnkeyed | src/lambdas/email_processor/handler.py:240-254 | the patch sets no key attribute and nothing an index reads, so the store accepts it |
| EmailProcessor.NamedProjectKeepsName | src/lambdas/email_processor/handler.py:243-246 | a real stored name is never replaced |
| EmailProcessor.PatchOverwrites | src/lambdas/email_processor/handler.py:249-254 | non-empty address and people replace the stored ones |
| EmailProcessor.KeptAttachments | src/lambdas/email_processor/handler.py:112-130 | a stored record is kept iff it comes from an attachment within the size limit that S3 stored; none is over the limit |
| EmailProcessor.KeptSingle | src/lambdas/email_processor/handler.py:113-130 | one attachment is kept iff it is within the limit and stored |
| EmailProcessor.KeptAttachmentsConcat | src/lambdas/email_processor/handler.py:113-130 | the attachments are kept in their order: two runs are kept one after the other |
| EmailProcessor.CollectAttachments | src/lambdas/email_processor/handler.py:112-130 | the loop keeps exactly those attachments |
| EmailProcessor.AttachmentsSummary | src/lambdas/email_processor/handler.py:133-137 | no summary iff no attachments; one attachment gives `name (type)` |
| EmailProcessor.SummaryAppend | src/lambdas/email_processor/handler.py:134-136 | each further attachment adds `, name (type)` |
| EmailProcessor.ProcessEmailRecord | src/lambdas/email_processor/handler.py:64-174 | a notification that cannot be decoded raises; a missing bucket or key, an auto-reply, then a disallowed sender return before any write; a record that passes the filters is recorded exactly as `RecordEmail` states; a recorded e-mail's id has a text `pid` and adds exactly one event keyed `(org#pid, now)` |
| EmailProcessor.RecordEmail | src/lambdas/email_processor/handler.py:112-170 | the model is asked with the sender, the subject, the body cut to 100000 characters and the summary of the kept attachments; its error writes nothing; otherwise the e-mail is filed, as `FileEmail` states, under the project the four steps resolve from the tables as they were |
| EmailProcessor.RecordedEventKeys | src/lambdas/email_processor/handler.py:150-167 | a successful recording adds exactly one event, under the returned project and the current millisecond, and no other event changes |
| EmailProcessor.FiledEventKeys | src/lambdas/email_processor/handler.py:150-167 | a successful filing returns an id with a text and adds exactly one event, under that text and the current millisecond |
| EmailProcessor.FileEmail | src/lambdas/email_processor/handler.py:150-167 | a failed resolution raises and writes nothing; otherwise the projects table is as resolving left it (the new project added on creation), the resolved id is carried as it is: a list or map id is refused with `UNRENDERED_ID` without writing an event, any other is stored in the e-mail event at `(org#pid, now)` with `pid` its text, the project is patched as `UpdateProjectMetadata` states, and that id, as it is, is returned unless the patch raised |
| EmailProcessor.WriteEmailEvent | src/lambdas/email_processor/handler.py:150-167 | a list or map id is refused with `UNRENDERED_ID` and nothing changes; otherwise the events table gains exactly the e-mail event (the event defaults, with the id as given, overridden by the message id, sender, subject, raw key, kept attachments and extracted data) at `(org#pid, now)` with `pid` the id's text; the projects table changes as `UpdateProjectMetadata` states; the id, as given, is returned unless the patch raised |
| EmailProcessor.EmailEventKey | src/lambdas/email_processor/handler.py:153-163 | the event data does not override the event's key or its `project_id`, which is the id as given, and its tenant is a non-empty string as the tenant index needs |
| EmailProcessor.CountFailed | src/lambdas/email_processor/handler.py:44-49 | the failure count is at most the number of records |
| EmailProcessor.LambdaHandler | src/lambdas/email_processor/handler.py:28-61 | every record is tried, a failing one not stopping later ones, and each record's outcome is fixed by its input as far as the store allows: a notification that cannot be decoded or an e-mail S3 cannot deliver fails, a record without a location, an auto-reply or a refused sender is skipped, any other is recorded or fails; `failed` counts the failed records, `processed + failed` is the batch size, status 200 iff none failed, else 207 |
| EmailProcessor.Executed | src/lambdas/email_processor/handler.py:163 | a run stops at the first call that raises |
| EmailProcessor.AsWrittenNothingStored | src/lambdas/email_processor/handler.py:163 | see Findings |
| EmailProcessor.WithTenantAllCallsAccepted | src/lambdas/email_processor/handler.py:163 | see Findings |
| Billing.GetTierConfig | src/shared/billing_client.py:371-380 | the tier under the lower-cased name; starter for any other name |
| Billing.GetTierConfigIgnoresCase | src/shared/billing_client.py:380 | the lookup ignores case |
| Billing.CheckUsageLimits | src/shared/billing_client.py:383-407 | each flag is set iff the limit exists and usage is strictly above it; counts and limits are echoed unchanged |
| Billing.AtLimitNeverFlagged | src/shared/billing_client.py:399-401 | usage at the limit is never flagged |
| Billing.FlagsMonotone | src/shared/billing_client.py:399-401 | raising usage never clears a flag |
| Billing.EnterpriseNeverExceeded | src/shared/billing_client.py:44-57 | the enterprise tier never reports a limit exceeded |
| Billing.UnknownTierUsesStarterLimits | src/shared/billing_client.py:15-21 | an unknown tier is checked against 500 e-mails, 2 projects and a 20.00 budget |
| AiClient.SlicePrefix | src/shared/ai_client.py:246 | Python's `text[:m]`, with negative `m` counting from the end, is a prefix of the text |
| AiClient.SanitizeInput | src/shared/ai_client.py:233-264 | a prefix of the input; with a non-negative bound its length is `min(len, bound)`; short input is unchanged |
| AiClient.SanitizeIdempotent | src/shared/ai_client.py:243-246 | sanitising twice with a non-negative bound equals sanitising once |
| AiClient.SanitizeEmpty | src/shared/ai_client.py:243-264 | empty input stays empty |
| AiClient.NegativeBoundNotIdempotent | src/shared/ai_client.py:244-246 | with a negative bound a second call drops more characters |
| ReplySender.Extension | src/lambdas/reply_sender/handler.py:185 | the extension is the lower-cased text after the last `.`, or the whole name |
| ReplySender.GetContentType | src/lambdas/reply_sender/handler.py:176-201 | the table's type for a known extension, `application/octet-stream` otherwise; always contains `/` |
| ReplySender.ContentTypeIgnoresCase | src/lambdas/reply_sender/handler.py:185 | the name's case does not matter |
| ReplySender.NoDotUsesWholeName | src/lambdas/reply_sender/handler.py:185 | a name without a dot is looked up whole |
| ReplySender.FormatAcknowledgmentEmail | src/lambdas/reply_sender/handler.py:204-257 | each body is the fixed opening, one entry per key point in order, and the fixed closing |
| ReplySender.AppendNumberedLines | src/lambdas/reply_sender/handler.py:221-222 | the loop appends the numbered list |
| ReplySender.AppendListItems | src/lambdas/reply_sender/handler.py:242-243 | the loop appends one `<li>` per point |
| ReplySender.NumberedLineAt | src/lambdas/reply_sender/handler.py:221-222 | point `k` is line `k+1` of the numbered list |
| ReplySender.ListItemAt | src/lambdas/reply_sender/handler.py:242-243 | point `k` is the `k`-th list entry |
| ReplySender.NumberedLineInBody | src/lambdas/reply_sender/handler.py:215-230 | the text body carries every numbered point |
| ReplySender.ListItemInBody | src/lambdas/reply_sender/handler.py:232-252 | the HTML body carries every point as a list entry |
| ReplySender.AckMentionsProject | src/lambdas/reply_sender/handler.py:215-252 | both bodies name the project |
| ReplySender.SendReply | src/lambdas/reply_sender/handler.py:29-75 | a missing or empty required field gives 500 without sending; otherwise 200 iff SES succeeds |
| ReplySender.MissingFieldIgnoresSes | src/lambdas/reply_sender/handler.py:47-48 | with a field missing the answer does not depend on SES |
| PdfParser.IdentifyDocumentType | src/parsers/pdf_parser.py:185-211 | the first rule in order whose keywords occur in the lower-cased text; `unknown` as the catch-all, never none |
| PdfParser.ClassifierIgnoresCase | src/parsers/pdf_parser.py:194 | classification ignores case |
| PdfParser.BidNeedsPartner | src/parsers/pdf_parser.py:196-197 | `bid_invitation` iff `bid` occurs with `invitation` or `proposal` |
| PdfParser.EstimateBeforeChangeOrder | src/parsers/pdf_parser.py:198-201 | `estimate` wins over `change order` |
| PdfParser.PlannedIsDrawing | src/parsers/pdf_parser.py:206-207 | substring match: `planned` is a drawing |
| PdfParser.InspectionIsSpecification | src/parsers/pdf_parser.py:208-209 | substring match: `inspection` is a specification |
| PdfParser.EmptyIsUnknown | src/parsers/pdf_parser.py:210-211 | empty text is `unknown` |
| Onboarding.LimitValue | scripts/onboard_client.py:90-92 | an unlimited tier limit is stored as `None`, any other as its number |
| Onboarding.ApiBudgetCents | scripts/onboard_client.py:88 | the tier's budget, or 1000.00 when it has none |
| Onboarding.TrialHasEndDate | scripts/onboard_client.py:87-93 | `trial` iff there is a trial end, `trial_days` whole days after creation; otherwise `active` and no end |
| Onboarding.StoredLimitsMatchUsageCheck | scripts/onboard_client.py:88-92 | the stored limits are those `check_usage_limits` applies for the same tier name |
| Onboarding.EnterpriseGetsFallbackBudget | scripts/onboard_client.py:88 | enterprise is given the 1000.00 fallback budget |
| Onboarding.CheckAvailable | scripts/onboard_client.py:67-75 | passes iff the e-mail and subdomain are non-empty and unused; the e-mail is checked first; an empty one is the store's `ValidationError`, a taken one `ValueError` |
| Onboarding.OnboardClient | scripts/onboard_client.py:33-180 | an empty or taken e-mail or subdomain raises before any write; otherwise the organization is created (with the Stripe id when there is one; its money as exact amounts, the source's floats being refused, see Findings) and stays even if a later step fails; success iff Cognito created the admin or reports "already exists" and the admin e-mail is non-empty, an empty one making `create_user` raise `ValidationError` |
| Onboarding.CreateOrganizationWithStripe | scripts/onboard_client.py:96-124 | the organization is stored, its money as exact amounts (see Findings); a Stripe failure only fills in `error` |
| Onboarding.AsWrittenOnboardingRefused | scripts/onboard_client.py:88-89 | see Findings: with the script's float money, the organization put raises `TypeError` for every tier |
| Onboarding.OnboardingAmountsStored | scripts/onboard_client.py:88-89 | the script's money as exact amounts serializes, to exactly the budget and spend fields of the organization data |
| Onboarding.AttachStripeCustomer | scripts/onboard_client.py:101-124 | the customer id and `updated_at` are set on success; nothing changes on failure |
| Onboarding.OrganizationDataKeys | scripts/onboard_client.py:82-96 | the script's data leaves the generated organization id in place, and with a non-empty e-mail and subdomain the indexes accept it |
| Onboarding.AdminUserKeys | scripts/onboard_client.py:147-153 | the admin record carries both required attributes and a non-empty tenant; `create_user` accepts it iff the admin e-mail is non-empty |
| Onboarding.CheckArguments | scripts/onboard_client.py:247-274 | proceed iff the tier is a choice, the e-mail ends in `@myprojectr.com`, and the subdomain is alphanumeric with at least 3 characters; a bad tier is a usage error (exit 2), other rejections exit 1 |
| Onboarding.AcceptedTierIsTableKey | scripts/onboard_client.py:258 | every accepted tier name is a key of the tier table |
| Onboarding.AcceptedSubdomainIsLabel | scripts/onboard_client.py:272-274 | an accepted subdomain has no `.`, space or `@` |
| Onboarding.AcceptedEmailSplits | scripts/onboard_client.py:267-269 | an accepted e-mail is a local part followed by the fixed suffix |

## Left out

- I/O is not modelled: boto3, S3 reads and writes, SES sending, Stripe, Cognito and the language-model calls. Their results are parameters (`stripe`, `cognito`, `extract`, stored-attachment outcomes, the SES outcome).
- MIME handling is not part of this model: `parse_raw_email`, `extract_body`, `extract_attachments`, `send_email`, `create_attachment`. The processor receives the headers as a sequence of (name, value) pairs in message order, the body text, and the attachments already extracted.
- The clock, `uuid4`, date formatting and S3 object names are inputs. Each operation reads the clock once, where the source reads it separately for `created_at`, `updated_at` and `ttl`.
- Concurrency is left out: concurrent writers and DynamoDB's eventual consistency are not modelled.
- Float money is modelled as integer cents. That covers `round(total_cost, 2)`, `float` sums, the `:.2f` formatting and `format_estimate_email`, which is left out.
- `lower` and `isalnum` cover ASCII letters and digits only, not Unicode. Whitespace (`strip`, `\s`) is Python's full `str.isspace` set.
- EmailParser.Header: header names are compared with that ASCII lower-casing; the e-mail library's own case folding of non-ASCII names is not modelled.
- `send_acknowledgment`, `send_response` and the onboarding welcome e-mail only write log lines and are left out.
- The injection-phrase scan in `sanitize_input` only logs and is left out.
- The `UpdateExpression` string building and the index provisioning are reduced to map updates and key predicates.
- EmailProcessor.DetermineProjectId, EmailProcessor.ProcessEmailRecord, EmailProcessor.UpdateProjectMetadata: these take a tenant `org`. The source calls the store without one; see Findings.
- EmailProcessor.LambdaHandler, EmailProcessor.ProcessEmailRecord, EmailProcessor.RecordEmail, EmailProcessor.FileEmail, EmailProcessor.WriteEmailEvent, EmailProcessor.DetermineProjectId, EmailProcessor.ResolveBySender, EmailProcessor.UpdateProjectMetadata: the tenant `org` must be non-empty. Organization ids are generated as `ORG-` and twelve hex digits, so no tenant is empty. The store's refusal of an empty tenant id is stated on the store members.
- EmailProcessor.ProcessEmailRecord: the language-model request is summarised as an `AiRequest` value. The attachment text extraction that feeds it is not modelled.
- Onboarding.OnboardClient: its `ValueError` messages leave out the existing organization's id.
- Usage.CostValue: `float` of a string accepts only an optional sign, digits and at most two decimals. Underscores, exponents, `inf`/`nan`, more decimals and non-ASCII digits are reported as `ValueError`, because amounts are whole cents.
- Usage.TokenValue: `int` of a string accepts only an optional sign and ASCII digits. Underscores and non-ASCII digits are reported as `ValueError`.
- EmailProcessor.DetermineProjectId: a list or map used as a project id would be rendered by its `repr`, which is not modelled. The AI step treats it as naming no project; a stored one is returned as it is.
- Store.DbClient.CreateEvent: a list or map project id is refused with `UNRENDERED_ID`, where the source would build the partition from its `repr` and store the event.
- EmailProcessor.WriteEmailEvent: the same list or map id is refused with `UNRENDERED_ID` before any write, where the source would store the event under its `repr`.
- `Value` has no floating-point numbers, so a fraction in the model's JSON extraction, which `put_item` would refuse, cannot be expressed.
- Store.DbClient.GetProjectEvents: the default `limit=100` (db_client.py:319) has no counterpart; callers pass the limit.
- Store.DbClient.GetOrganizationEvents: the same default `limit=100` (db_client.py:342) has no counterpart; callers pass the limit.
- Store.DbClient.CreateOrganization: as written, the `20.0` and `0.0` defaults are floats that boto3 refuses with `TypeError`. The model stores exact amounts instead; see Findings.
- Onboarding.OnboardClient: as written, the float budget and spend make `create_organization` raise `TypeError` for every tier, so nothing is created. The model stores exact amounts instead; see Findings.
- Onboarding.CreateOrganizationWithStripe: the same float refusal is replaced by exact amounts; see Findings.
- EmailProcessor.ProcessEmailRecord: decoding the SQS body and SNS message (`json.loads`, lines 71-74) is an input, `notification`, that is either the S3 location or the error decoding raised.
- EmailProcessor.LambdaHandler: the per-record outcomes are ghost. The source only logs them and returns the two counts.
- Onboarding.TrialHasEndDate: the trial end is `now` plus whole days of 86 400 000 ms. `datetime.now()` is local time, so across a daylight-saving change the real end is an hour off; the model assumes a fixed UTC offset.
- Store.DbClient.CreateUser: does not model the `free`/`1000` user defaults. The older tests expect them, but the store does not set them.
- Store.DbClient.GetProjectsByOrganization: the source reads only the first page of the query (db_client.py:221-224; DynamoDB pages at 1 MB) and ignores `LastEvaluatedKey`. The model returns every match.
- Store.DbClient.GetProjectsByClient: the same single-page read (db_client.py:238-243) is modelled as returning every match.
- Store.DbClient.GetOrganizationUsers: the same single-page read (db_client.py:416-420) is modelled as returning every match.
- Store.DbClient.GetApiUsageByDate: the same single-page read (db_client.py:492-499) is modelled as returning every match.
- Store.DbClient.GetApiUsageSummary: the same single-page read (db_client.py:521-526) is modelled as summarising every matching record.
- Store.DbClient.GetApiUsageSummary: the window starts at `now - days * 86 400 000` ms. The source computes `datetime.now() - timedelta(days=days)` on naive local time (db_client.py:517-518), so across a daylight-saving change its start is an hour off from that.

## Findings

| source | as written | input that shows it | evidently intended | confidence | as-written member | corrected member |
|---|---|---|---|---|---|---|
| src/lambdas/email_processor/handler.py:163 | `create_event`, `get_project`, `create_project` and `update_project` are called without the tenant id (lines 163, 193, 202, 227, 244, 257), one argument short of the store's signatures | any record that passes the filters: a `get_project` call (with a hint or an extracted id) raises `TypeError` at once; otherwise `get_projects_by_client`, whose arity is right, runs and the following `create_project` or `create_event` raises. No event or project is ever written and the record counts as failed | each call passes the tenant's `organization_id` first | not executed | EmailProcessor.AsWrittenNothingStored | EmailProcessor.WithTenantAllCallsAccepted |
| src/shared/db_client.py:46-47 | the defaults `'monthly_api_budget': 20.0` and `'current_month_spend': 0.0` are Python floats, and boto3's serializer raises `TypeError` on a float | `create_organization({})`, or any data that does not replace both fields with `Decimal`s: `put_item` raises and nothing is stored | the defaults are `Decimal('20.0')` and `Decimal('0.0')` | not executed | Store.AsWrittenOrganizationRefused | Store.OrganizationAmountsStored |
| scripts/onboard_client.py:88-89 | `tier_config['api_budget'] or 1000.0` and `0.0` are floats (the tier table's budgets too), so `create_organization` at line 96 raises `TypeError` | `onboard_client(..., tier='starter')`, or any tier: the script fails at step 2 and no organization is created | the budget and spend are `Decimal`s | not executed | Onboarding.AsWrittenOnboardingRefused | Onboarding.OnboardingAmountsStored |
