# Domain Locker: a verified model of its decision rules

Domain Locker is a web application for keeping track of the domain names a
user owns: registrar, expiry, DNS, TLS certificate, host and tags. Most of
it is Angular UI calling Supabase and network libraries. This project
models the sequential rules underneath, one Dafny module per source file.
It then proves what each rule promises. The rules are:

- the `/api/domain-info` route, which gathers WHOIS, DNS, TLS and
  geolocation answers into one record and collects errors;
- feature-flag and environment-variable resolution;
- breadcrumbs derived from the page path and the navigation tree;
- the domain list's column choice and substring search;
- the two notification-preference pages;
- the account-issue rules and their severity-ordered sort;
- the app shell's route classification and auth/MFA redirects;
- the tag store, with its insert-or-fetch and relink rules;
- the database service's row building and error checks;
- the account page's password and profile rules;
- the about page's anchor ids.

All network, database and auth answers are parameters of the model,
including rows returned, error codes, and whether a call throws. Nothing
in the model performs I/O.

Two modules are shared:

- `Wrappers` holds `Option` and `Result`.
- `JsValues` holds JavaScript values with truthiness, `||` and `??`.

`Text` holds ASCII string helpers: `split`/`join` on one character,
`includes`, case mapping and digits.

Where the code and its documentation disagree, the model follows the code.
Three quirks are pinned as written:

- `getParentDomain("www.example.co.uk")` returns its input unchanged.
- `registrarName` is parenthesised so that any truthy `registrarName`
  yields `whoisData.registrar`.
- `domainExists` reports `false` when two rows match, because `.single()`
  fails with `PGRST116` both for no row and for several rows.

## Model

| member | source | states |
|---|---|---|
| DomainInfo.ErrorLog.SafeExecute | src/server/routes/domain-info.ts:12-19 | a resolved call returns its value and leaves `errors` unchanged; a rejected one returns undefined and appends `errorMsg` exactly once |
| DomainInfo.ParentDomainCases | src/server/routes/domain-info.ts:21-26 | the result differs from the input exactly when there are more than two labels and the second-to-last is longer than 3 characters, and is then the last two labels joined by '.' |
| DomainInfo.ParentDomainIdempotent | src/server/routes/domain-info.ts:21-26 | applying `getParentDomain` twice gives the same as once |
| DomainInfo.ParentDomainOfSubdomain | src/server/routes/domain-info.ts:21-26 | `sub.example.com` gives `example.com` |
| DomainInfo.ParentDomainOfCountryCodeSuffix | src/server/routes/domain-info.ts:21-26 | `www.example.co.uk` comes back unchanged, as coded |
| DomainInfo.AddressList | src/server/routes/domain-info.ts:51-87 | the IPv4, IPv6 and name-server lookups never reject: a resolver error gives `[]`, otherwise the addresses as answered |
| DomainInfo.MxRoundTrip | src/server/routes/domain-info.ts:96 | the text `"<exchange> (priority: <priority>)"` parses back to the exact record, so the format loses nothing |
| DomainInfo.MxList | src/server/routes/domain-info.ts:90-100 | never rejects; a resolver error gives `[]`; otherwise one string per record, same count and order, each exactly `FormatMx` of its record and parsing back to it |
| DomainInfo.MxExample | src/server/routes/domain-info.ts:96 | a record `mail.example.com`/10 renders as `mail.example.com (priority: 10)` |
| DomainInfo.FlattenAppend | src/server/routes/domain-info.ts:110 | flattening distributes over concatenation of the chunk lists, and so does the total length |
| DomainInfo.FlattenLayout | src/server/routes/domain-info.ts:110 | element j of chunk i sits at position (total length of the chunks before i) + j of the flattened list |
| DomainInfo.FlattenLength | src/server/routes/domain-info.ts:110 | the flattened list's length is the sum of the chunk lengths |
| DomainInfo.TxtList | src/server/routes/domain-info.ts:103-115 | never rejects; a resolver error gives `[]`; otherwise exactly the in-order concatenation (`Flatten`) of every record's chunks, as many strings as they hold together |
| DomainInfo.TxtExample | src/server/routes/domain-info.ts:110 | one TXT record of two chunks flattens to those two strings in order |
| DomainInfo.StatusMatches | src/server/routes/domain-info.ts:155 | every match of `[a-zA-Z]+Prohibited` is a run of ASCII letters ending in `Prohibited` |
| DomainInfo.Dedup | src/server/routes/domain-info.ts:155 | `Array.from(new Set(...))` keeps exactly the same members and has no duplicates |
| DomainInfo.DedupKeepsFirstOccurrenceOrder | src/server/routes/domain-info.ts:155 | the de-duplicated list is ordered by first occurrence in the input |
| DomainInfo.StatusArray | src/server/routes/domain-info.ts:153-157 | an empty or undefined status gives `[]`; otherwise exactly `Dedup` of the pattern's matches, so every element is a status code, there are no duplicates, the members are exactly the matches, in order of first appearance |
| DomainInfo.BackupRecord | src/server/routes/domain-info.ts:285-308 | the fallback object has a registrar record and a date block and no `registrarName`, and its domain name is non-empty unless the parent domain is empty |
| DomainInfo.BackupWhois | src/server/routes/domain-info.ts:261-283 | without an API key the fallback gives null; otherwise it gives a record exactly when the API answers JSON with a `WhoisRecord`, built from that record and the parent domain |
| DomainInfo.WhoisLookup | src/server/routes/domain-info.ts:28-48 | the WHOIS answer for the parent domain is used when it is a non-empty object; a WHOIS error gives null; an empty answer falls back to the backup lookup |
| DomainInfo.CertificateDetails | src/server/routes/domain-info.ts:135-150 | the TLS probe resolves exactly when `getPeerCertificate()` gave a certificate object rather than null, with that object; a socket error or null rejects |
| DomainInfo.HostLookup | src/server/routes/domain-info.ts:117-132 | never rejects; gives data exactly on a JSON answer: the data with a non-empty `regionName` copied into `region`, otherwise unchanged |
| DomainInfo.NonEmpty | src/server/routes/domain-info.ts:204-235 | `s \|\| null` gives the string exactly when it is non-empty, null otherwise; this is `Or` of the string and `null` |
| DomainInfo.RegistrarNameIgnoresRegistrarName | src/server/routes/domain-info.ts:199-201 | with a truthy `registrarName` the result is `whoisData.registrar`, whatever `registrarName` says |
| DomainInfo.RegistrarNameLost | src/server/routes/domain-info.ts:199-201 | a record with only `registrarName` set gets no registrar name at all |
| DomainInfo.BackupRegistrarName | src/server/routes/domain-info.ts:199-201 | for a fallback record the registrar name is the record's registrar `name` |
| DomainInfo.AssemblyDefaults | src/server/routes/domain-info.ts:206-252 | absent lookups give `[]` for the address and DNS lists and `''`/0/null for the TLS fields; the expiry date falls back to `registrarRegistrationExpirationDate` |
| DomainInfo.BackupContactDropped | src/server/routes/domain-info.ts:221-229 | a fallback record's registrant contact never reaches the response, because the route reads flat `registrant*` fields |
| DomainInfo.HandleDomainInfo | src/server/routes/domain-info.ts:160-257 | the handler, step by step, returns exactly the response of the route's decision function |
| DomainInfo.ErrorsOnlyFromTls | src/server/routes/domain-info.ts:185-197 | on success `errors` is undefined or exactly the TLS message, and undefined exactly when the certificate probe resolves |
| DomainInfo.FatalInputs | src/server/routes/domain-info.ts:171-182 | a missing domain returns only 'Domain name is required'; WHOIS data that resolves to null, including an empty answer without the API key, returns only 'Failed to fetch WHOIS data' |
| DomainInfo.HostFromFirstIpv4 | src/server/routes/domain-info.ts:194-197 | without IPv4 addresses `host` is undefined; otherwise it is the geolocation of the first address |
| DomainInfo.NoGeolocationWithoutIpv4 | src/server/routes/domain-info.ts:194-197 | without IPv4 addresses the response does not depend on the geolocation service at all |
| DomainInfo.EverythingButWhoisFails | src/server/routes/domain-info.ts:185-252 | with only WHOIS answering, the response succeeds with empty lists, default TLS fields, no host, the single TLS error and the WHOIS domain name |
| Features.ManagedValueIgnoresPlan | src/app/services/features.service.ts:40-43 | in 'managed', a boolean or number `managed` value is used as is, whatever the plan |
| Features.ManagedPerPlanEntry | src/app/services/features.service.ts:44-46 | in 'managed' with a per-plan object, the plan's entry is used unless null or missing, and then `default` |
| Features.UnmanagedUsesEnvironmentValue | src/app/services/features.service.ts:48-53 | outside 'managed', the environment's own value is used when defined, otherwise `default`; the `managed` entry plays no part |
| Features.ValueOf | src/app/services/features.service.ts:64-66 | `getFeatureValue` gives the resolved value, or null when the feature is unset |
| Features.EnabledOf | src/app/services/features.service.ts:71-81 | `isFeatureEnabled` passes booleans through and gives false for anything else |
| Features.ManagedWithoutEntryIsNull | src/app/services/features.service.ts:40-47 | in 'managed' a feature with no `managed` key is left unset, so its value is null and it is not enabled |
| Features.FeatureService.ResolveFeatures | src/app/services/features.service.ts:31-58 | the loop returns the resolved record, feature by feature, and fails exactly when some feature's resolution throws |
| Features.FeatureService.OnUserPlan | src/app/services/features.service.ts:22-25 | a new plan (null or empty counted as 'free') replaces the active features with its resolution; when resolving throws, the active features stay as they were |
| Environment.MapKeyToVarName | src/app/services/environment.service.ts:24-26 | a leading `DL_` is stripped exactly when present; other keys are unchanged |
| Environment.ResolvedValue | src/app/services/environment.service.ts:36-39 | a truthy build-time value wins; otherwise the runtime value; the fallback only when the runtime value is null or undefined |
| Environment.GetEnvVar | src/app/services/environment.service.ts:35-45 | throws, with the message naming the key, exactly when the resolved value is falsy and `throwError` is set; otherwise returns it |
| Environment.LookupNeverThrows | src/app/services/environment.service.ts:35-45 | without `throwError` the lookup never throws, and with neither value set it gives the fallback |
| Environment.GetEnvironmentType | src/app/services/environment.service.ts:61-67 | the result is one of dev/managed/self-hosted/demo; when the configured value spells one of them, the result is exactly that type, and otherwise self-hosted |
| Environment.EnvironmentTypeCases | src/app/services/environment.service.ts:61-67 | a known configured value is returned as is; an unknown or missing one gives 'self-hosted' |
| Environment.ThrowingLookup | src/app/services/environment.service.ts:41-44 | a throwing lookup succeeds exactly when the value is truthy, with that value, and otherwise fails with the key's message |
| Environment.SupabaseEnabledIffGettersSucceed | src/app/services/environment.service.ts:52-81 | Supabase is enabled exactly when both the URL and the anon key getters succeed (both truthy); each getter returns the looked-up value |
| Environment.GetPlausibleConfig | src/app/services/environment.service.ts:91-96 | site and URL default to '' and the configuration counts exactly when both are truthy |
| Environment.PlausibleUnconfigured | src/app/services/environment.service.ts:91-96 | with nothing set the configuration is two empty strings and not configured |
| Breadcrumbs.RegisterAllAppend | src/app/components/misc/breadcrumbs.component.ts:158-170 | registering two lists of links is registering the first, then the second |
| Breadcrumbs.AddLinksIsPreorder | src/app/components/misc/breadcrumbs.component.ts:157-180 | the recursive walk registers the links in pre-order: each link before its `items` |
| Breadcrumbs.AddLinkIsPreorder | src/app/components/misc/breadcrumbs.component.ts:159-169 | one link and its sub-tree are registered in pre-order |
| Breadcrumbs.RegisterAllKeys | src/app/components/misc/breadcrumbs.component.ts:160-164 | a key is in the map exactly when it was there before or some link with a `routerLink` ends in it |
| Breadcrumbs.RegisterAllLastWins | src/app/components/misc/breadcrumbs.component.ts:163 | the last link registered under a key decides its entry |
| Breadcrumbs.RegisterAllUntouched | src/app/components/misc/breadcrumbs.component.ts:163 | a key no link ends in keeps its entry |
| Breadcrumbs.LastSegment | src/app/components/misc/breadcrumbs.component.ts:161 | the last '/'-segment of a router link holds no '/' |
| Breadcrumbs.Capitalize | src/app/components/misc/breadcrumbs.component.ts:147-148 | a segment containing '.' is kept; otherwise only the first character is upper-cased; the length is kept |
| Breadcrumbs.LabelForPath | src/app/components/misc/breadcrumbs.component.ts:138-151 | a fixed table entry wins; otherwise the capitalised segment |
| Breadcrumbs.LabelCases | src/app/components/misc/breadcrumbs.component.ts:147-150 | without a table entry, a segment with '.' is kept verbatim and any other has its first letter upper-cased |
| Breadcrumbs.IconForPath | src/app/components/misc/breadcrumbs.component.ts:108-127 | the nav-map icon when set; else `' pi pi-<name>'` from the fallback table; else undefined |
| Breadcrumbs.SvgIconForPath | src/app/components/misc/breadcrumbs.component.ts:129-136 | the nav-map SVG icon when set, else undefined: the fallback table is empty, so for a segment that is not an inherited object name an SVG icon comes only from the nav map |
| Breadcrumbs.NonEmptyParts | src/app/components/misc/breadcrumbs.component.ts:87 | the kept parts are exactly the non-empty parts of the split path |
| Breadcrumbs.NonEmptyPartsAppend | src/app/components/misc/breadcrumbs.component.ts:87 | the filter distributes over concatenation, drops `''` and keeps any other part, so every non-empty part is kept in its order |
| Breadcrumbs.BeforeQuery | src/app/components/misc/breadcrumbs.component.ts:85 | the part before '?' is the longest '?'-free prefix of the path: the whole path, or the text before its first '?' |
| Breadcrumbs.Segments | src/app/components/misc/breadcrumbs.component.ts:85-87 | the segments are exactly the non-empty '/'-parts of the text before '?', in their order, and hold no '/' or '?' |
| Breadcrumbs.CleanPath | src/app/components/misc/breadcrumbs.component.ts:89 | the cleaned segment is the segment's longest prefix without '?' or '#': the whole segment, or the text before the first of them |
| Breadcrumbs.CrumbsShape | src/app/components/misc/breadcrumbs.component.ts:84-98 | one crumb per non-empty segment plus Home first; crumb i+1's route is the first i+1 segments joined by '/', its label and icon those of the cleaned segment |
| Breadcrumbs.RouteExtends | src/app/components/misc/breadcrumbs.component.ts:153-155 | each crumb's route extends the previous one by '/' and the next segment, is a prefix of it, and has no leading slash |
| Breadcrumbs.ShouldShow | src/app/components/misc/breadcrumbs.component.ts:101-106 | breadcrumbs show exactly when there is a page path whose part before '?' is not '/' |
| Breadcrumbs.ShowExamples | src/app/components/misc/breadcrumbs.component.ts:101-106 | whether or not breadcrumbs were passed in: hidden for no path, for '/' and for '/?tab=1'; shown for '/domains' |
| Breadcrumbs.BreadcrumbsComponent.AddLinksToMap | src/app/components/misc/breadcrumbs.component.ts:158-170 | the recursive walk leaves the map as the link-tree's registration and changes nothing else |
| Breadcrumbs.BreadcrumbsComponent.FlattenNavLinks | src/app/components/misc/breadcrumbs.component.ts:157-180 | the map becomes the pre-order registration of all links |
| Breadcrumbs.BreadcrumbsComponent.UpdateBreadcrumbs | src/app/components/misc/breadcrumbs.component.ts:79-99 | the show flag is set by the rule above; with a page path the crumbs are rebuilt from it, otherwise left as given |
| DomainList.MapFieldToColumnTable | src/app/pages/domains/index.page.ts:96-110 | the ten known keys map per the table; any other key maps to itself |
| DomainList.FieldsToShow | src/app/pages/domains/index.page.ts:81-84 | `domainName` is always among the fields shown, besides exactly the selected ones |
| DomainList.SelectedColumns | src/app/pages/domains/index.page.ts:86-88 | a column is kept exactly when some field shown maps to it |
| DomainList.SelectedIsSubsequence | src/app/pages/domains/index.page.ts:86-88 | the filter keeps the columns in `allColumns` order |
| DomainList.VisibleColumnsProperties | src/app/pages/domains/index.page.ts:79-94 | `domain_name` is always visible and first; any other column is visible exactly when some selected field maps to it |
| DomainList.VisibleColumnsKeepOrder | src/app/pages/domains/index.page.ts:86-93 | the visible columns keep `allColumns` order, and the sort putting `domain_name` first changes nothing else |
| DomainList.MoveToFrontFacts | src/app/pages/domains/index.page.ts:91-93 | the sort keeps the same columns and count and puts `domain_name` first when present |
| DomainList.MatchesSearchCases | src/app/pages/domains/index.page.ts:143-150 | an empty term matches every domain; with no other fields, a domain matches exactly when the lower-cased name contains the term |
| DomainList.MatchingDomains | src/app/pages/domains/index.page.ts:136-140 | the fallback filter keeps exactly the domains that match the search |
| DomainList.MatchingDomainsOrder | src/app/pages/domains/index.page.ts:136-140 | two matching domains appear in the filtered list in their original order |
| DomainList.DomainListPage.UpdateVisibleColumns | src/app/pages/domains/index.page.ts:79-94 | the visible columns become the chosen ones, `domain_name` first |
| DomainList.DomainListPage.OnVisibilityChange | src/app/pages/domains/index.page.ts:74-77 | stores the selected fields and recomputes the columns |
| DomainList.DomainListPage.FilterDomains | src/app/pages/domains/index.page.ts:129-141 | an empty term shows all domains; else the fuzzy results; when those are empty, the substring matches |
| DomainList.DomainListPage.OnSearchChange | src/app/pages/domains/index.page.ts:112-115 | stores the lower-cased term; all domains for an empty term, the fuzzy results when there are any, else the substring matches; the domains, visible fields and columns are unchanged |
| DomainList.DomainListPage.ResetFilters | src/app/pages/domains/index.page.ts:152-156 | the term becomes '' and every domain is shown; the domains are unchanged |
| EditEvents.SelectionMembers | src/app/pages/notifications/edit-events/index.page.ts:54-59 | a domain is selected for a type exactly when some enabled preference of that type names it |
| EditEvents.TypeRows | src/app/pages/notifications/edit-events/index.page.ts:74-78 | one row per domain in domain order, enabled exactly when the domain is in the type's selection |
| EditEvents.PreferenceRowsLayout | src/app/pages/notifications/edit-events/index.page.ts:72-79 | saving gives |types|×|domains| rows, type-major; row i·|domains|+j is type i and domain j, enabled exactly when selected |
| EditEvents.PreferenceRowsLength | src/app/pages/notifications/edit-events/index.page.ts:72-79 | the row count is |types|×|domains| |
| EditEvents.MissingSelectionDisablesType | src/app/pages/notifications/edit-events/index.page.ts:73 | a type without a selection saves all its rows disabled |
| EditEvents.EditEventsPage.Load | src/app/pages/notifications/edit-events/index.page.ts:44-61 | after load every type has a control, set to its selection; other controls are kept |
| EditEvents.LoadThenSave | src/app/pages/notifications/edit-events/index.page.ts:54-79 | load followed by save enables exactly the (type, domain) pairs that had an enabled preference |
| NotificationPreferences.EmptyControls | src/app/pages/settings/notification-preferences.page.ts:154-163 | one empty control per name |
| NotificationPreferences.AddFieldControls | src/app/pages/settings/notification-preferences.page.ts:154-156 | adding a field list's controls sets each to '' and keeps the others |
| NotificationPreferences.BuildChannelControls | src/app/pages/settings/notification-preferences.page.ts:153-165 | a channel's controls are its required fields, plus `provider` and every provider's fields when it has providers, all empty |
| NotificationPreferences.ChannelNamesDistinct | src/app/pages/settings/notification-preferences.page.ts:152-168 | the configured channels have distinct control names |
| NotificationPreferences.BuildForm | src/app/pages/settings/notification-preferences.page.ts:152-168 | one group per channel name, disabled with empty controls |
| NotificationPreferences.NotificationPreferencesPage.InitializeForm | src/app/pages/settings/notification-preferences.page.ts:151-171 | the form holds an initial group for every configured channel |
| NotificationPreferences.DisabledChannelPasses | src/app/pages/settings/notification-preferences.page.ts:217-219 | a disabled channel never makes the form invalid |
| NotificationPreferences.EmptyRequiredFieldFails | src/app/pages/settings/notification-preferences.page.ts:220-230 | an enabled channel with an empty required field is invalid |
| NotificationPreferences.UnknownProviderChecksNothing | src/app/pages/settings/notification-preferences.page.ts:232-246 | an unknown or empty provider checks no provider fields |
| NotificationPreferences.SelectedProviderFields | src/app/pages/settings/notification-preferences.page.ts:234 | `find` picks the first provider with the selected value |
| NotificationPreferences.NoMatchingProvider | src/app/pages/settings/notification-preferences.page.ts:234-236 | with no provider of that value, no fields are checked |
| NotificationPreferences.OnlySelectedProviderChecked | src/app/pages/settings/notification-preferences.page.ts:232-246 | with ntfy selected only its `topic` is checked; another provider's field does not matter |
| NotificationPreferences.CheckFields | src/app/pages/settings/notification-preferences.page.ts:220-230 | the inner loop keeps `isValid` exactly when it was set and every field passes |
| NotificationPreferences.CheckChannels | src/app/pages/settings/notification-preferences.page.ts:214-249 | the outer loop ends valid exactly when every channel passes |
| NotificationPreferences.NotificationPreferencesPage.SavePreferences | src/app/pages/settings/notification-preferences.page.ts:213-275 | the form is persisted exactly when every check passes; otherwise only the incomplete-fields message is shown |
| NotificationPreferences.DefaultWebhookUrl | src/app/pages/settings/notification-preferences.page.ts:197-211 | ntfy gives 'https://ntfy.sh', pushbullet 'https://pushbullet.com', gotify/pushbits/custom ''; any other value keeps the URL |
| NotificationPreferences.NotificationPreferencesPage.SetDefaultWebhookUrl | src/app/pages/settings/notification-preferences.page.ts:197-211 | only the webhook URL changes, to the provider's default |
| NotificationPreferences.PatchGroup | src/app/pages/settings/notification-preferences.page.ts:179 | patching keeps the control names and takes the stored `enabled` when given |
| NotificationPreferences.PatchForm | src/app/pages/settings/notification-preferences.page.ts:179 | patching keeps the channel names |
| NotificationPreferences.EmailDefault | src/app/pages/settings/notification-preferences.page.ts:182 | the e-mail channel is enabled with the address set; the form keeps its names |
| NotificationPreferences.DefaultEnablesEmail | src/app/pages/settings/notification-preferences.page.ts:182 | an initial e-mail group becomes enabled with exactly the user's address |
| NotificationPreferences.DefaultLeavesOthers | src/app/pages/settings/notification-preferences.page.ts:182 | no other channel changes |
| NotificationPreferences.DefaultAfterInitialisation | src/app/pages/settings/notification-preferences.page.ts:147-186 | after initialisation, the default gives an enabled e-mail channel with the address and every other channel still initial |
| NotificationPreferences.NotificationPreferencesPage.LoadNotificationPreferences | src/app/pages/settings/notification-preferences.page.ts:173-187 | stored preferences are patched in; none stored or a fetch error gives the e-mail default |
| AccountIssues.SeverityOfIsRecorded | src/app/services/supabase.service.ts:215-286 | each issue's sort severity is the one it is pushed with |
| AccountIssues.DomainLimitIssues | src/app/services/supabase.service.ts:272-285 | more than 5 domains gives the upgrade error, 4–5 the info, 3 or fewer or a null count none |
| AccountIssues.OfSeveritySnoc | src/app/services/supabase.service.ts:292-295 | the issues of one severity grow with its own issues only |
| AccountIssues.OfSeverityAll | src/app/services/supabase.service.ts:292-295 | the issues picked for a severity all have it |
| AccountIssues.SortBySeveritySorted | src/app/services/supabase.service.ts:291-295 | sorted issues come error, then warn, then info |
| AccountIssues.SortBySeverityPermutes | src/app/services/supabase.service.ts:291-295 | sorting is a permutation: nothing is added or lost |
| AccountIssues.SortBySeveritySnoc | src/app/services/supabase.service.ts:291-295 | sorting one more issue adds exactly it to the sorted multiset |
| AccountIssues.OfSeverityAppend | src/app/services/supabase.service.ts:292-295 | picking one severity distributes over concatenation |
| AccountIssues.SortBySeverityStable | src/app/services/supabase.service.ts:291-295 | the sort is stable: each severity's issues keep their push order |
| AccountIssues.SortIssues | src/app/services/supabase.service.ts:291-295 | the sorting step returns the stable severity sort |
| AccountIssues.AppendOfSeverity | src/app/services/supabase.service.ts:292-295 | one pass appends the issues of one severity in order |
| AccountIssues.PushUserIssues | src/app/services/supabase.service.ts:223-267 | the user checks push their issues in source order |
| AccountIssues.PushIssues | src/app/services/supabase.service.ts:209-289 | the pushes, including an early stop on an exception, give the collected issues |
| AccountIssues.GetAccountIssues | src/app/services/supabase.service.ts:206-297 | the result is the collected issues, severity-sorted |
| AccountIssues.MissingSessionIsError | src/app/services/supabase.service.ts:215-221 | a missing session yields the session-expired error, first |
| AccountIssues.UserRules | src/app/services/supabase.service.ts:223-267 | each user issue appears exactly when its rule holds: locked, no e-mail, profile incomplete, MFA disabled unless GitHub, unverified identities |
| AccountIssues.CompleteTail | src/app/services/supabase.service.ts:269-286 | after the user checks only plan issues follow |
| AccountIssues.UserIssuesMembers | src/app/services/supabase.service.ts:223-267 | an issue is pushed by the user checks exactly when its rule holds |
| AccountIssues.PlanRules | src/app/services/supabase.service.ts:269-286 | the plan issues appear exactly for a free plan with more than 5, or 4–5, domains |
| AccountIssues.ExceptionKeepsEarlierIssues | src/app/services/supabase.service.ts:223-289 | an exception in the locked check keeps the issues collected before it |
| AccountIssues.SignedOutCollected | src/app/services/supabase.service.ts:209-286 | a signed-out user with 6 domains collects the five issues in push order |
| AccountIssues.SignedOutSorted | src/app/services/supabase.service.ts:291-295 | sorting them puts the three errors first, keeping order within each severity |
| AppShell.CurrentRoute | src/app/app.component.ts:118 | the route is `Or` of `urlAfterRedirects` and `url`: the first when non-empty, otherwise the second |
| AppShell.RouteClasses | src/app/app.component.ts:78-133 | public exactly for '/', '/home' or a '/login' or '/about' prefix; full width exactly when containing '/settings' or '/stats'; big footer implies public |
| AppShell.PublicRouteExamples | src/app/app.component.ts:78-137 | '/home' is public but '/home/x' is not; '/login-help' is public; '/settings' is not |
| AppShell.SettingsIsFullWidth | src/app/app.component.ts:79-137 | a settings sub-page is full width and private |
| AppShell.AuthDecisions | src/app/app.component.ts:181-215 | no check without Supabase; signed out goes to /login; MFA below aal2 goes to /login requiring MFA; any exception fails the check without navigating |
| AppShell.MissingMfaProbeFails | src/app/app.component.ts:196-210 | with the MFA call throwing, a signed-in user fails the check and is not sent to the MFA login, whatever the assurance level |
| AppShell.SignedInStays | src/app/app.component.ts:190-206 | a signed-in user at aal2, or without MFA, stays |
| AppShell.AppComponent.OnNavigationEnd | src/app/app.component.ts:116-156 | path, footer and width flags set; public routes allow robots with no check; others disallow robots, run the check and record its navigation and toasts; loading ends false |
| TagStore.FindOwned | src/app/services/db-query-services/db-tags.service.ts:80-85 | finds a tag of that name and owner, or none exactly when the owner lacks it |
| TagStore.FindNamed | src/app/services/db-query-services/db-tags.service.ts:137-141 | finds a tag of that name, or none exactly when no tag has it |
| TagStore.SingleNamed | src/app/services/db-query-services/db-tags.service.ts:137-141 | `.single()` by name gives the tag exactly when one tag has the name |
| TagStore.NamedCounted | src/app/services/db-query-services/db-tags.service.ts:137-141 | some tag has the name exactly when its count is positive |
| TagStore.AppendTag | src/app/services/db-query-services/db-tags.service.ts:147-151 | inserting a tag adds one to its name's count and moves no earlier match |
| TagStore.ComposeGrowth | src/app/services/db-query-services/db-tags.service.ts:136-158 | keeping single names and creating a name at most once survive successive steps |
| TagStore.OtherDomains | src/app/services/db-query-services/db-tags.service.ts:133 | the links kept by the delete all belong to other domains |
| TagStore.LinksOf | src/app/services/db-query-services/db-tags.service.ts:133 | a domain's links all belong to it |
| TagStore.OtherDomainsOfOthers | src/app/services/db-query-services/db-tags.service.ts:133 | links all of other domains are kept whole |
| TagStore.LinksOfAppend | src/app/services/db-query-services/db-tags.service.ts:131-163 | selecting by domain distributes over concatenation |
| TagStore.LinksOfSame | src/app/services/db-query-services/db-tags.service.ts:159-161 | links all of the domain are its whole selection |
| TagStore.Counted | src/app/services/db-query-services/db-tags.service.ts:121-124 | one row per tag with its id, data and number of links |
| TagStore.LinksBelowStep | src/app/services/db-query-services/db-tags.service.ts:121-124 | counting links below n+1 adds tag n's count |
| TagStore.NoLinksBelowZero | src/app/services/db-query-services/db-tags.service.ts:121-124 | no link is below tag 0 |
| TagStore.LinksBelowAll | src/app/services/db-query-services/db-tags.service.ts:121-124 | every link names a tag below the table size |
| TagStore.DomainCountsCoverLinks | src/app/services/db-query-services/db-tags.service.ts:121-124 | the domain counts add up to the number of links |
| TagStore.CountedPrefix | src/app/services/db-query-services/db-tags.service.ts:121-124 | the counts of the first n tags add up to the links below n |
| TagStore.ExtendNamed | src/app/services/db-query-services/db-tags.service.ts:136-161 | a new link for the next name keeps earlier links naming theirs |
| TagStore.SplitDomainLinks | src/app/services/db-query-services/db-tags.service.ts:133-161 | other domains' links followed by the domain's split back into the two |
| TagStore.PrefixLookups | src/app/services/db-query-services/db-tags.service.ts:65-100 | links into the old tags read the same after inserts |
| TagStore.OwnedAfterInsert | src/app/services/db-query-services/db-tags.service.ts:67-71 | inserting a tag the owner lacks adds exactly that name and keeps names unique per owner |
| TagStore.BoundedConcat | src/app/services/db-query-services/db-tags.service.ts:95-99 | links naming existing tags still do after appending more |
| TagStore.TagTables.TagsWithDomainCounts | src/app/services/db-query-services/db-tags.service.ts:104-128 | every tag with `domain_count` equal to its number of `domain_tags` entries |
| TagStore.TagTables.InsertOrFetch | src/app/services/db-query-services/db-tags.service.ts:67-91 | a new tag gets a new id; a duplicate gives the owner's existing id; any other error fails |
| TagStore.TagTables.InsertEach | src/app/services/db-query-services/db-tags.service.ts:65-100 | one link per name in order, stopping at the first failing insert |
| TagStore.TagTables.SaveTags | src/app/services/db-query-services/db-tags.service.ts:58-101 | no change for no tags; no change and an error without a user; otherwise it fails exactly when some name can be neither inserted nor found among the user's tags, and adds one link per name, in order, to the user's tag of that name, up to the first name that fails; on failure the error names that first failing name, and the links for the names before it are kept |
| TagStore.TagTables.FindOrCreate | src/app/services/db-query-services/db-tags.service.ts:137-158 | reuses the single tag of that name, otherwise creates it unless the insert fails |
| TagStore.TagTables.CollectLinks | src/app/services/db-query-services/db-tags.service.ts:136-162 | links in name order; a name is linked exactly when it is `LinkableAt` (held by exactly one tag before, created by an earlier name, or its create works), and the loop stops at the first name that is not; a name held by one tag links to that tag, any other name to a tag created by the update |
| TagStore.TagTables.UpdateTags | src/app/services/db-query-services/db-tags.service.ts:131-163 | other domains' links are untouched; the domain's links are replaced by one per name, in order, up to the first name that is not `LinkableAt`, where a failed create stops the update, keeping earlier links; a name held by one tag links to it, a name held by none or by several links to a newly created tag |
| Database.InsertFailure | src/app/services/database.service.ts:68-198 | an insert throws its error exactly when it is made and errors |
| Database.MapDbDomainToDomain | src/app/services/database.service.ts:200-211 | copies id, user id, name, registrar and notes verbatim |
| Database.MapDomainRoundTrip | src/app/services/database.service.ts:200-211 | the mapping round-trips both ways, so no two rows become the same domain |
| Database.DomainExists | src/app/services/database.service.ts:24-28 | any error other than PGRST116 throws; otherwise the answer is whether data came back |
| Database.DomainExistsCountsRows | src/app/services/database.service.ts:16-29 | against the table: true exactly when one row has the user and name; a PGRST116 error gives false; other errors throw |
| Database.MatchingMembers | src/app/services/database.service.ts:20-21 | a row is matched exactly when it has the user and the name |
| Database.DomainPayloadOf | src/app/services/database.service.ts:34-40 | the inserted row copies name, registrar, expiry and notes, with the current user's id |
| Database.CheckInsertedDomain | src/app/services/database.service.ts:48-49 | the insert's error throws; no row back throws 'Failed to insert domain'; otherwise the row |
| Database.IpRows | src/app/services/database.service.ts:68-75 | no addresses: no insert; otherwise one row per address for the domain |
| Database.IpRowsRoundTrip | src/app/services/database.service.ts:71-75 | the rows store exactly the addresses given, in order, with `is_ipv6` copied |
| Database.NotificationRows | src/app/services/database.service.ts:184-191 | no notifications: no insert; otherwise one row per notification for the domain |
| Database.NotificationRowsRoundTrip | src/app/services/database.service.ts:187-191 | the rows store exactly the notifications given, in order, with type and flag copied |
| Database.TypedRows | src/app/services/database.service.ts:124-136 | one row of the type per value, in order |
| Database.SaveDnsRecords | src/app/services/database.service.ts:120-140 | no DNS data: no insert; otherwise all MX, then TXT, then NS rows |
| Database.ValuesOfTypeAppend | src/app/services/database.service.ts:122-137 | picking one type's values distributes over concatenation |
| Database.ValuesOfTypedRows | src/app/services/database.service.ts:124-136 | rows of one type give back their values for that type and nothing for others |
| Database.ValuesOfThree | src/app/services/database.service.ts:122-137 | one type's values in the three runs are the runs' values in order |
| Database.DistinctTypes | src/app/services/database.service.ts:125-135 | the three record types differ |
| Database.ValuesOfDnsRows | src/app/services/database.service.ts:122-137 | a type's values in a DNS save are exactly that type's list |
| Database.DnsRowsRecover | src/app/services/database.service.ts:122-137 | each DNS list is recovered in order from the rows of its type |
| Database.DnsRowsOrdered | src/app/services/database.service.ts:122-137 | every row belongs to the domain, is MX, TXT or NS, and the types come in that order |
| Database.InsertOrFetchNamed | src/app/services/database.service.ts:88-109 | another insert error fails; a new name is inserted; a duplicate is fetched by name and fails only when that fetch does |
| Database.InsertOrFetchEach | src/app/services/database.service.ts:87-117 | one link per name in order, stopping at the first failure with its cause; every name linked is outside `failing`, so a failing insert always ends the loop with a failure |
| Database.SaveTags | src/app/services/database.service.ts:84-118 | no change for no tags; otherwise one link per saved tag, in order, keeping those made before a failure; every linked name is outside `failing`; under the unique key the save fails exactly when some name's insert fails with another error |
| Database.UniqueNameFetched | src/app/services/database.service.ts:101-108 | under the unique key an existing name is always fetched |
| Database.SaveDomain | src/app/services/database.service.ts:31-65 | a failed domain insert throws its failure with nothing else saved; otherwise the address, notification and DNS rows and the tag links are made for the new id; a failing tag insert fails the save, and under the unique key the tags fail exactly when some tag's insert fails; the save throws one of the child failures when any occurs, and otherwise returns the mapped domain |
| Database.SaveDomainFailures | src/app/services/database.service.ts:55-62 | the save's failure set is empty exactly when no child save fails |
| Database.ListDomainNames | src/app/services/database.service.ts:213-223 | an error throws; otherwise every name lower-cased, null data giving [] |
| Database.ListedNamesLowered | src/app/services/database.service.ts:220 | no listed name holds an upper-case letter, and listing again changes nothing |
| Account.PasswordMatchValidator | src/app/pages/settings/account.page.ts:276-279 | null exactly when the two values are equal, otherwise the mismatch error |
| Account.PasswordsMatch | src/app/pages/settings/account.page.ts:276-279 | for filled-in passwords, null exactly when they are the same |
| Account.FindProvider | src/app/pages/settings/account.page.ts:117 | the identity found has the provider |
| Account.FindProviderMisses | src/app/pages/settings/account.page.ts:117 | `find` misses exactly when no identity has the provider |
| Account.HasPasswordRules | src/app/pages/settings/account.page.ts:112-125 | an e-mail identity gives true; otherwise the truthiness of `has_password`; no session gives false |
| Account.ProfileDefaults | src/app/pages/settings/account.page.ts:93-94 | name is `name`, else `full_name`, else ''; avatar is `avatar_url`, else ''; neither is ever null |
| Account.AccountPage.PasswordValues | src/app/pages/settings/account.page.ts:277 | the form's values by control name |
| Account.AccountPage.UpdatePasswordForm | src/app/pages/settings/account.page.ts:103-109 | `currentPassword` is present exactly when the user has a password; nothing else changes; the match check's verdict is kept |
| Account.AccountPage.OnPasswordChecked | src/app/pages/settings/account.page.ts:49-53 | stores the answer and shapes the form by it |
| Account.AccountPage.LoadUserData | src/app/pages/settings/account.page.ts:87-101 | e-mail then profile defaults; a missing user or missing metadata adds one error toast; loading ends false |
| About.MakeId | src/app/pages/about/index.page.ts:29-31 | same length; each space becomes '-' in place and every other character is lower-cased |
| About.MakeIdIsSlug | src/app/pages/about/index.page.ts:29-31 | no space and no upper-case letter remains, and `makeId` is idempotent |
| About.MakeIdKeeps | src/app/pages/about/index.page.ts:30 | characters other than spaces and upper-case letters stay in place |
| About.MakeIdExample | src/app/pages/about/index.page.ts:30 | "Getting Started" becomes "getting-started" |
| Text.Lower | src/app/pages/domains/index.page.ts:113 | `toLowerCase` keeps the length and maps each ASCII letter to lower case in place |
| Text.LowerIdempotent | src/app/pages/domains/index.page.ts:113 | lower-casing twice is lower-casing once |
| Text.Split | src/server/routes/domain-info.ts:22 | `split` gives at least one part, no part holds the separator, and the first part is the longest separator-free prefix |
| Text.JoinSplit | src/server/routes/domain-info.ts:22-24 | joining the parts of a split with the same separator gives back the string |
| Text.SplitJoin | src/server/routes/domain-info.ts:22-24 | splitting a join of separator-free parts gives back the parts |
| Text.IncludesIff | src/app/pages/domains/index.page.ts:144-149 | `includes` holds exactly when the term occurs at some position |
| Text.IncludesChar | src/app/components/misc/breadcrumbs.component.ts:147 | including a one-character string is containing that character |
| Text.ReplaceChar | src/app/pages/about/index.page.ts:30 | replacing every occurrence keeps the length and changes exactly the occurrences |
| Text.DecimalValueOfNatToString | src/server/routes/domain-info.ts:96 | a number's decimal text reads back as that number |
| JsValues.Or | src/app/pages/settings/account.page.ts:93-94 | `a \|\| b` is `a` when truthy, otherwise `b`; the result is truthy exactly when either operand is |
| JsValues.OrAssociative | src/app/pages/settings/account.page.ts:93-94 | a chain of `\|\|` fallbacks gives the same value however it is grouped |
| JsValues.Coalesce | src/app/services/features.service.ts:65 | `a ?? b` is `b` exactly when `a` is null or undefined, otherwise `a`; the result is nullish exactly when both operands are |
| JsValues.CoalesceVersusOr | src/app/services/features.service.ts:65 | `??` agrees with `\|\|` except on a defined falsy left operand, which `??` keeps and `\|\|` replaces |
| JsValues.OrText | src/app/services/features.service.ts:22-24 | `a \|\| fallback` on a possibly missing string is `Or` of the two values: the string when non-empty, otherwise the fallback; the plan fallbacks `userPlan \|\| 'free'` and `current_plan \|\| 'free'` are this one rule |
| Account.AccountPage.constructor | src/app/pages/settings/account.page.ts:72-76 | the initial password form has `newPassword` (required, at least 8) and `confirmPassword` (required), and no `currentPassword` |
| AppShell.AppComponent.constructor | src/app/app.component.ts:81-84 | the shell starts loading, with an empty path and neither full width nor big footer |

## Left out

- Network and database I/O is not modelled. This covers `whois-json`, `dns.resolve*`, `tls.connect`, `fetch`, and the Supabase client and auth calls. Their answers are parameters, either supplied results or failures.
- The `Promise.all` fan-outs run in sequence. A rejection picks one failure out of the set of failures, because which promise rejects first depends on timing.
- The domain-info route pushes to `errors` in a fixed order, while the timing of the real pushes is not modelled. The proved results do not depend on that order, because only the TLS probe can push.
- Fuse.js fuzzy search is a foreign library: its results are a parameter, and only the substring fallback is modelled.
- `decodeURIComponent`, the `isDomainPage` regular expression and Unicode case mapping are not modelled. Case mapping is ASCII only.
- `makeStatusArray` models the regular expression's token behaviour: the longest letter run ending in `Prohibited`, scanning left to right.
- `new Date(...)` conversions are left out: dates stay as the stored text.
- RxJS observables, Angular forms internals and change detection are not modelled. The e-mail validator is a supplied predicate.
- The UI-only state changes `markAsTouched` and `setValidators` are left out. Only `isValid` and the outcome are modelled.
- `checkIfDocsDisabled`, the meta-tag service and the toast wording of the error handler are left out of the app shell.
- `getProjectId` and `getGlitchTipDsn` are plain lookups, covered by `GetEnvVar`.
- `saveSslInfo` and `saveWhoisInfo` are left out: they copy `any`-typed objects and convert dates.
- The `domain_tags` link insert's own error is not modelled, in either tag service. A link insert always succeeds.
- The tag services do not model row-level security. The database service's `saveTags` sees one unique key on the tag name. A failing tag insert is named by the `failing` set of names.
- The tag loops assign `links` once, after the loop, with the links collected in order. The final tables are those of the source's one-by-one inserts.
- A failed tag save in `Database.SaveDomain` surfaces as `TagFailed(cause)` rather than as the database's own error object.
- `Account.AccountPage.LoadUserData`: `getCurrentUser` throwing is modelled as a missing user; both take the same catch path.
- `NotificationPreferences.NotificationPreferencesPage.SavePreferences` does not model the result of the asynchronous persist call as a separate step. The call's success is a parameter that picks the message.
- DomainList.DomainListPage.ResetFilters: the filter component's `initializeSelectedFields()` call is not modelled, because that component is not part of this model. Nothing is promised about the selected fields or the visible columns after a reset.
- DomainInfo.HandleDomainInfo: the catch-all response "An unexpected error occurred while processing domain information" is not modelled. Every modelled step inside the `try` either succeeds or is caught by its own handler, so no unmodelled exception reaches it.
- DomainList.MatchingDomains: a registrar whose `name` is `null` makes `registrar?.name.toLowerCase()` throw in the source; the model treats that registrar as a non-match.
- NotificationPreferences.NotificationPreferencesPage.LoadNotificationPreferences: `getCurrentUser` is awaited before the `try`, so its throwing rejects the call; that path is not modelled, only a missing user is.
- Database.SaveDomain: `getCurrentUser` is awaited while the domain row is built, outside any `try`, so its throwing rejects the call; that path is not modelled, only a missing user is.
- Numbers are integers (`Num(int)` in `JsValues`, and the feature values): floating-point values are not modelled.
- The two tag services look tags up by different keys, and each model follows its own service. `db-tags.service` looks a tag up by name and user, so `TagStore` keys tags on the pair. `database.service` looks a tag up by name alone, so `Database` keys tags on the name.
- Breadcrumbs.LabelForPath: `labels[path]` is a lookup on a plain object, so it also finds inherited names such as `constructor` and `toString`, which give a function. That is not modelled: the label table is a map holding only its own six entries.
- Breadcrumbs.IconForPath: `navLinksMap[path]` and `icons[path]` also find inherited object names such as `constructor`. That is not modelled: both tables are maps holding only their own entries.
- Breadcrumbs.SvgIconForPath: the empty `icons` object still yields an inherited function for names such as `constructor`, so the source can give an SVG icon that is not from the nav map. That is not modelled.
- AppShell.CheckAuthentication: the Supabase service the shell calls defines neither `isMFAEnabled` nor `getAuthenticatorAssuranceLevel`. Both are modelled as probes with a supplied answer. In the code as it stands, `mfaEnabled == Throws` is what happens for every signed-in user (`AppShell.MissingMfaProbeFails`).
- DomainInfo.HandleDomainInfo: every lookup is assumed to settle. `tls.connect` sets no time-out, so a peer that neither completes the handshake nor errors leaves the TLS probe pending; the `Promise.all` then never settles and the route never responds. "Returns exactly" holds only for lookups that settle.
- DomainInfo.ExpiryDate, DomainInfo.UpdatedDate and DomainInfo.CreationDate: the last operand `whoisData?.dates?.…` is output as it is, so an empty string there stays `""` in the source. The model's record fields use `""` for an absent value and read it as null. The difference shows only for WHOIS data whose own `dates` entry is an empty string, because the fallback record always fills in "Unknown".
