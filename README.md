# Multi-tenant notification pipeline — a Dafny model

This project models the core of a multi-tenant notification pipeline. The pipeline has four stages, and they talk to each other only through queue tables in each tenant's own PostgreSQL database:

1. The notification stage stores a posted notification and publishes `NotificationInitialized`.
2. The template stage turns a notification into an e-mail.
3. The sender stage delivers the e-mail.
4. The message-queue service routes each publish to a queue table by event name, and each poll by the caller's origin.

A tenant control panel onboards and tears down tenants.

The model covers these parts of the system:

- Routing:
  - the two event-name routing tables and the referer (origin) routing table (`RefererRouting`, `EventRouting`, `LegacyEventRouting`);
  - how the routing tables fit together (`Pipeline`).
- The message-queue façade with its lazily filled inserter and processor caches (`MessageQueueRepository`).
- The two per-tenant connection-string factories (`ConnectionSettings`, `MessageQueueConnections`, `NotificationConnections`).
- Tenant onboarding and teardown, as ordered steps with no rollback (`TenantControlPanel`).
- Payload decoding and the objects built from a notification:
  - the three stages' decoders of dequeued payloads (`EmailSenderPayload`, `EmailTemplatePayload`, `NotificationPayload`);
  - the notification DTO's conversions (`NotificationDto`).
- Notification storage and publishing:
  - the notification table with paging (`NotificationRepository`);
  - the notification service, including the payload it publishes (`NotificationService`);
  - the preference lookup by property name (`NotificationPreferences`).
- E-mail templates:
  - the event-to-template mapper (`EmailTemplateNames`);
  - the localized texts and their .NET composite formatting (`Localization`);
  - the two in-memory template repositories (`EmailTemplates`, `TemplateRepository`, `StandaloneTemplateRepository`);
  - the template service's `{{field}}` substitution (`EmailTemplateService`).

Objects whose fields the source updates in place are classes with `modifies` clauses. These are:

- the message-queue façade and its inserters and processors;
- the control panel;
- the notification repository;
- the notification service;
- the template repositories;
- the template service.

Every method of these classes is proved against a function of the old state. Pure mappings and decoders are functions, and lemmas relate them to each other.

Some outside behaviour is given to the model as parameters:

- the external queue store's reply;
- a database command's failure;
- an HTTP reply;
- a fresh GUID;
- the clock;
- the SQL and template files.

Across stages, the model proves these round trips:

- what the notification service publishes is what the notification stage decodes;
- what it sends on is what the template stage decodes.

Two behaviours one might expect are absent from the code, and the model follows the code:

- **Credentials.** Onboarding creates no tenant-scoped database credentials, and teardown drops none (`TenantControlPanel/TenantControlPanelService.cs:31-106`), so the model has no credentials.
- **Missing base connection string.** The connection resolver does not fail when its base connection string is missing from configuration: it builds one from the missing entry without complaint (`NotificationService/NotificationAPI/Configuration/ConnectionStringFactory.cs:16-19`). `FromConfiguration` gives the empty descriptor.

## Model

| member | source | states |
|---|---|---|
| RefererRouting.GetQueueTableName | NotificationService/MessageQueueAPI/DictionariesAndMappers/RefererToQueueTableMapper.cs:29-55 | an empty referer and an unparsable one raise `ArgumentException` with the source's messages; the result is a table exactly when the lower-cased `scheme://authority` origin is a key of the static map, and then it is that key's table |
| RefererRouting.PathIgnored | NotificationService/MessageQueueAPI/DictionariesAndMappers/RefererToQueueTableMapper.cs:47-52 | the path, and so a trailing slash, never changes the queue a referer selects |
| RefererRouting.ParseWithPath | NotificationService/MessageQueueAPI/DictionariesAndMappers/RefererToQueueTableMapper.cs:37-47 | a referer made of a valid scheme, "://", an authority and a path parses to the lower-cased scheme and authority, whatever the path |
| RefererRouting.OriginRoutes | NotificationService/MessageQueueAPI/DictionariesAndMappers/RefererToQueueTableMapper.cs:47-54 | a lower-case origin followed by a path routes through the table under its own name, or fails naming that origin |
| RefererRouting.RegisteredHttpOrigin | NotificationService/MessageQueueAPI/DictionariesAndMappers/RefererToQueueTableMapper.cs:47-51 | a registered `http://` origin followed by any path gives its mapped table |
| RefererRouting.UnregisteredHttpOrigin | NotificationService/MessageQueueAPI/DictionariesAndMappers/RefererToQueueTableMapper.cs:49-54 | an unregistered `http://` origin raises `ArgumentException` naming the origin |
| RefererRouting.NotificationOriginRoutes | NotificationService/MessageQueueAPI/DictionariesAndMappers/RefererToQueueTableMapper.cs:17-22 | origin `http://localhost:5258`, with or without a path, drains `queues.unprocessed_notifications` |
| RefererRouting.TemplateOriginRoutes | NotificationService/MessageQueueAPI/DictionariesAndMappers/RefererToQueueTableMapper.cs:17-22 | origin `http://localhost:5298` drains `queues.emails_to_be_merged_into_template` |
| RefererRouting.SenderOriginRoutes | NotificationService/MessageQueueAPI/DictionariesAndMappers/RefererToQueueTableMapper.cs:17-22 | origin `http://localhost:5089` drains `queues.emails_to_be_sent` |
| RefererRouting.TemplatePollerOriginRejected | NotificationService/MessageQueueAPI/DictionariesAndMappers/RefererToQueueTableMapper.cs:49-54 | the referer `http://email-template-api:8080` the template poller sends is unmapped and is rejected |
| RefererRouting.RefererRoutingInjective | NotificationService/MessageQueueAPI/DictionariesAndMappers/RefererToQueueTableMapper.cs:17-22 | distinct registered origins map to distinct queue tables |
| EventRouting.GetDbTableForEventName | NotificationService/MessageQueueAPI/DictionariesAndMappers/EventNameToDbTableMapper.cs:19-27 | a result exactly for the three event names, always one of the three queue tables; any other name raises `ArgumentException("Unknown event name: …")` |
| EventRouting.EventRoutes | NotificationService/MessageQueueAPI/DictionariesAndMappers/EventNameToDbTableMapper.cs:23-25 | each event name routes to its own stage's table |
| EventRouting.CaseVariantRejected | NotificationService/MessageQueueAPI/DictionariesAndMappers/EventNameToDbTableMapper.cs:21-26 | matching is exact: a lower-cased event name is rejected |
| EventRouting.EventRoutingInjective | NotificationService/MessageQueueAPI/DictionariesAndMappers/EventNameToDbTableMapper.cs:21-27 | two event names that route to the same table are equal |
| LegacyEventRouting.GetDbTableForEventName | NotificationService/MessageQueueAPI/EventNameToDbTableMapper.cs:7-15 | each of the three event names gives the table constant of its own name, always in the `queues.` schema; anything else raises `ArgumentException` |
| LegacyEventRouting.LegacyEventRoutes | NotificationService/MessageQueueAPI/EventNameToDbTableMapper.cs:9-13 | `NotificationInitialized`, `EmailTemplateShouldBePopulated` and `EmailTemplateHasBeenPopulated` route to the constants declared for them |
| LegacyEventRouting.LegacyRoutingInjective | NotificationService/MessageQueueAPI/EventNameToDbTableMapper.cs:3-5 | the three legacy tables are pairwise distinct |
| Pipeline.PipelineClosed | NotificationService/MessageQueueAPI/DictionariesAndMappers/EventNameToDbTableMapper.cs:21-27 | every table an event is published into is drained by some referer origin |
| Pipeline.LegacyNotificationQueueUndrained | NotificationService/MessageQueueAPI/EventNameToDbTableMapper.cs:3-11 | the table the legacy mapper routes `NotificationInitialized` to is drained by no origin |
| MessageQueueRepository.BuildDbConnection | NotificationService/MessageQueueAPI/MessageQueueRepo/MessageQueueRepo.cs:108-127 | succeeds exactly when host, database, user name and password are all non-empty, and then copies them verbatim; otherwise `ArgumentException` |
| MessageQueueRepository.FirstId | NotificationService/MessageQueueAPI/MessageQueueRepo/MessageQueueRepo.cs:60 | `ids.First()`: the first id when there is one, an `InvalidOperationException` on an empty list, a store error passed on |
| MessageQueueRepository.ToIdAndJObjects | NotificationService/MessageQueueAPI/MessageQueueRepo/MessageQueueRepo.cs:80-85 | the returned messages are the store's results in the same order, ids and payloads unchanged |
| MessageQueueRepository.QueueInserter.Insert | NotificationService/MessageQueueAPI/MessageQueueRepo/MessageQueueRepo.cs:59 | the batch is forwarded to the store and the store's ids are returned |
| MessageQueueRepository.QueueProcessor.TakeElementsForProcessing | NotificationService/MessageQueueAPI/MessageQueueRepo/MessageQueueRepo.cs:80 | the count is forwarded and the store's elements are returned |
| MessageQueueRepository.QueueProcessor.MakeElementDone | NotificationService/MessageQueueAPI/MessageQueueRepo/MessageQueueRepo.cs:105 | the id and result text are forwarded and the store's reply is returned |
| MessageQueueRepository.MessageQueueRepo.constructor | NotificationService/MessageQueueAPI/MessageQueueRepo/MessageQueueRepo.cs:36-40 | both caches start empty |
| MessageQueueRepository.MessageQueueRepo.EnqueueMessage | NotificationService/MessageQueueAPI/MessageQueueRepo/MessageQueueRepo.cs:48-61 | an unknown event fails before any cache entry or insert; otherwise cached inserters are reused and never replaced, at most the resolved queue is added, the message goes in as a one-element batch and the first returned id comes back |
| MessageQueueRepository.MessageQueueRepo.ProcessorFor | NotificationService/MessageQueueAPI/MessageQueueRepo/MessageQueueRepo.cs:73-78 | the processor cache keyed by the referer's queue only grows, an existing processor is reused, a new one starts with no calls |
| MessageQueueRepository.MessageQueueRepo.DequeueMessages | NotificationService/MessageQueueAPI/MessageQueueRepo/MessageQueueRepo.cs:69-86 | an unroutable referer fails with the mapper's error and changes nothing; an uncached queue whose connection string lacks a component fails with that `ArgumentException` and caches nothing; otherwise the queue's processor is asked for `count` and its results come back in order with ids and payloads unchanged; no other processor's calls change, nor the queue's done reports |
| MessageQueueRepository.MessageQueueRepo.MarkMessageAsDone | NotificationService/MessageQueueAPI/MessageQueueRepo/MessageQueueRepo.cs:94-106 | uses the same processor cache as `DequeueMessages`, with the same routing and connection-string errors that change nothing, and always reports the result text "Success"; no other processor's calls change, nor the queue's take requests |
| ConnectionSettings.WithDatabase | NotificationService/MessageQueueAPI/Configuration/ConnectionStringFactory.cs:23-24 | setting the builder's database changes that component and keeps host, port, user and password |
| ConnectionSettings.WithDatabaseOnlyDatabaseDiffers | NotificationService/MessageQueueAPI/Configuration/ConnectionStringFactory.cs:23-24 | two results for one base differ exactly when the databases differ, and in nothing else |
| MessageQueueConnections.ConnectionStringFactory.CreateConnectionString | NotificationService/MessageQueueAPI/Configuration/ConnectionStringFactory.cs:21-33 | the database is the tenant identifier; host, port, user and password are the base's |
| MessageQueueConnections.FromConfiguration | NotificationService/MessageQueueAPI/Configuration/ConnectionStringFactory.cs:16-19 | the base is the `MessageQueueDb` connection string, fixed at construction |
| MessageQueueConnections.TenantIsolation | NotificationService/MessageQueueAPI/Configuration/ConnectionStringFactory.cs:24 | two tenants get the same connection exactly when they are the same tenant |
| NotificationConnections.ConnectionStringFactory.CreateConnectionString | NotificationService/NotificationAPI/Configuration/ConnectionStringFactory.cs:21-26 | the database is the tenant identifier; every other component is the base's |
| NotificationConnections.FromConfiguration | NotificationService/NotificationAPI/Configuration/ConnectionStringFactory.cs:16-19 | the base is the `ConnectionString` entry, fixed at construction |
| NotificationConnections.TenantIsolation | NotificationService/NotificationAPI/Configuration/ConnectionStringFactory.cs:24 | two tenants get the same connection exactly when they are the same tenant |
| TenantControlPanel.OnboardingSucceeds | TenantControlPanel/TenantControlPanelService.cs:31-67 | onboarding succeeds exactly when every script is present and no step it reaches fails; creation is reached only for a new database |
| TenantControlPanel.OnboardingOrder | TenantControlPanel/TenantControlPanelService.cs:38-57 | a successful onboarding sends record, existence check, creation (new database only), notification schema, queues schema in that order and leaves the tenant in the records and the catalog |
| TenantControlPanel.OnboardingOnlyAdds | TenantControlPanel/TenantControlPanelService.cs:62-66 | whatever the outcome nothing is undone: records and catalog only gain the tenant, commands are only appended |
| TenantControlPanel.RecordSurvivesFailedCreation | TenantControlPanel/TenantControlPanelService.cs:38-42 | when creating the database fails the error is rethrown and the record stays |
| TenantControlPanel.ExistingDatabaseNotCreated | TenantControlPanel/TenantControlPanelService.cs:133-146 | a tenant whose database exists gets no `CREATE DATABASE` and the catalog is unchanged |
| TenantControlPanel.OnboardingRepeatable | TenantControlPanel/TenantControlPanelService.cs:133-146 | onboarding again after a success succeeds and changes neither records nor catalog |
| TenantControlPanel.TeardownSucceeds | TenantControlPanel/TenantControlPanelService.cs:69-106 | teardown succeeds exactly when its script is present and no step fails, whether or not the database exists |
| TenantControlPanel.TeardownOrder | TenantControlPanel/TenantControlPanelService.cs:76-96 | a successful teardown deletes the record, terminates the sessions, then drops the database if it exists; the tenant is then in neither set |
| TenantControlPanel.TeardownUndoesOnboarding | TenantControlPanel/TenantControlPanelService.cs:31-106 | teardown after onboarding a new tenant restores records and catalog |
| TenantControlPanel.QuotedSubstitutionComplete | TenantControlPanel/TenantControlPanelService.cs:155 | the quoted helper leaves no `@TenantIdentifier` behind unless the identifier itself holds one |
| TenantControlPanel.RecordSubstitutionComplete | TenantControlPanel/TenantControlPanelService.cs:113-116 | after the record script's three quoted substitutions no placeholder is left when the values hold none |
| TenantControlPanel.TenantControlPanelService.constructor | TenantControlPanel/TenantControlPanelService.cs:23-29 | the two connection strings are read from configuration once |
| TenantControlPanel.TenantControlPanelService.OnboardTenant | TenantControlPanel/TenantControlPanelService.cs:31-67 | the new state and result are those of `Onboarding` on the old state |
| TenantControlPanel.TenantControlPanelService.TeardownTenant | TenantControlPanel/TenantControlPanelService.cs:69-106 | the new state and result are those of `Teardown` on the old state |
| TenantControlPanel.TenantControlPanelService.CreateTenantRecord | TenantControlPanel/TenantControlPanelService.cs:108-124 | reads the record script, substitutes identifier, name and tier quoted, in that order, and sends it to the control-panel database |
| TenantControlPanel.TenantControlPanelService.CreateTenantDatabase | TenantControlPanel/TenantControlPanelService.cs:126-147 | asks whether the database exists and sends `CREATE DATABASE … WITH OWNER = admin;` only when it does not |
| TenantControlPanel.TenantControlPanelService.ExecuteSqlScriptOnTenantDatabaseWithQuotedTenantIdentifier | TenantControlPanel/TenantControlPanelService.cs:150-163 | reads the script, replaces every placeholder by the quoted identifier, sends it |
| TenantControlPanel.TenantControlPanelService.ExecuteSqlScriptOnTenantDatabaseWithoutQuotedTenantIdentifier | TenantControlPanel/TenantControlPanelService.cs:166-179 | reads the script, replaces every placeholder by the bare identifier, sends it |
| Strings.ReplaceAbsent | TenantControlPanel/TenantControlPanelService.cs:155 | `string.Replace` leaves a text without the pattern unchanged |
| Strings.ReplaceLeftmost | NotificationService/EmailTemplate/EmailTemplateAPI/EmailTemplateService.cs:36 | `string.Replace` keeps the text before the leftmost occurrence, replaces it and resumes after it |
| Strings.ReplaceLeavesNoOccurrence | TenantControlPanel/TenantControlPanelService.cs:155 | no occurrence of a pattern survives `Replace` when the replacement cannot create one |
| EmailTemplateNames.GetEmailTemplateNameFromEventName | NotificationService/EmailTemplateAPI/EventNameToEmailTemplateNameMapper.cs:22-29 | "dk.openesdh.case.document-upload" gives `DocumentUploadedToCase` and is the only name accepted; any other raises `ArgumentException` |
| EmailTemplateNames.QueueEventNamesRejected | NotificationService/EmailTemplateAPI/EventNameToEmailTemplateNameMapper.cs:24-28 | the queue pipeline's event names are not template events |
| Localization.GetMessage | NotificationService/EmailTemplateAPI/Localization/Localization.cs:26-31 | the stored text when the language and the key exist, the key otherwise |
| Localization.FormatMessage | NotificationService/EmailTemplateAPI/Localization/Localization.cs:33-37 | without arguments the looked-up text verbatim, with arguments the formatting of that text |
| Localization.FormatPlain | NotificationService/EmailTemplateAPI/Localization/Localization.cs:36 | a brace-free text formats to itself |
| Localization.FormatThreeItems | NotificationService/EmailTemplateAPI/Localization/Localization.cs:36 | `{0}`, `{1}`, `{2}` between brace-free text become the three arguments in order |
| Localization.DocumentUploadedEnglish | NotificationService/EmailTemplateAPI/Localization/Localization.cs:11 | the English upload line names modifier, document and case in that order |
| Localization.DocumentUploadedDanish | NotificationService/EmailTemplateAPI/Localization/Localization.cs:18 | the Danish upload line names the same values in the same order |
| Localization.LanguagesAgree | NotificationService/EmailTemplateAPI/Localization/Localization.cs:9-22 | "en" and "da" define the same keys |
| Localization.FallbackOnlyForUnknown | NotificationService/EmailTemplateAPI/Localization/Localization.cs:28-30 | the key comes back exactly when the language or the key is unknown |
| EmailSenderPayload.GetPropertyCaseInsensitive | NotificationService/EmailSenderAPI/Model/IdAndJObject.cs:55-62 | null exactly when no property matches ignoring case; otherwise the text of the first match |
| EmailSenderPayload.ToIdAndOutboundEmail | NotificationService/EmailSenderAPI/Model/IdAndJObject.cs:34-47 | the id is copied; succeeds exactly when all five fields are found, each equal to its lookup; otherwise the first missing field in the order to, from, subject, HTML body, text body is named |
| EmailSenderPayload.DecodesPayload | NotificationService/EmailSenderAPI/Model/IdAndJObject.cs:34-47 | a payload carrying the five fields decodes to them |
| EmailSenderPayload.NamesIgnoreCase | NotificationService/EmailSenderAPI/Model/IdAndJObject.cs:58-59 | renaming properties to names equal ignoring case does not change the decoded e-mail |
| EmailSenderPayload.EarliestWins | NotificationService/EmailSenderAPI/Model/IdAndJObject.cs:58-59 | a later property that matches a field ignoring case does not override the earlier one |
| Json.GetMissing | NotificationService/NotificationAPI/Model/IdAndJObject.cs:40 | `JObject[key]` is null exactly when no property has that exact name |
| Json.GetFirst | NotificationService/NotificationAPI/Model/IdAndJObject.cs:40 | `JObject[key]` is the value of the first property with that exact name |
| Json.StringMemberAt | NotificationService/NotificationAPI/Model/IdAndJObject.cs:41 | `ToObject<JsonData>` sets a string member from the last property matching its name ignoring case; a JSON null gives null |
| Json.StringMemberAbsent | NotificationService/NotificationAPI/Model/IdAndJObject.cs:41 | `ToObject<JsonData>` leaves a member with no matching property null |
| Json.EscapePlain | NotificationService/NotificationAPI/Model/NotificationFromJavaDto.cs:100 | in a token's JSON text, a string with no quote, backslash, control character or line separator is written between quotes as it is |
| Json.TopLevelObjectText | NotificationService/NotificationAPI/Model/NotificationFromJavaDto.cs:100 | `ToString()` of a non-empty object is its properties at indentation level 1 between `{` and `}` on lines of their own |
| Json.TextOfObject | NotificationService/NotificationAPI/Model/NotificationFromJavaDto.cs:100 | for any two properties with plain names, an object's `ToString()` is indented JSON: `{`, one property per line indented two spaces with `": "` after the quoted name and a comma between lines, each value rendered one level deeper, then `}` |
| Json.NestedObjectText | NotificationService/NotificationAPI/Model/NotificationFromJavaDto.cs:100 | an object nested one level deep has its property indented four spaces and its closing brace two |
| Json.TextOfArray | NotificationService/EmailSenderAPI/Model/IdAndJObject.cs:61 | an array's `ToString()` puts one element per line; empty objects and arrays stay `{}` and `[]` |
| Json.ParseBool | NotificationService/EmailTemplateAPI/Model/IdAndJObject.cs:46 | `Boolean.Parse` of a string token: true exactly when the text, with white space and NUL trimmed from both ends, is "True" ignoring case; false likewise for "False"; otherwise `FormatException` |
| Json.ParsePadded | NotificationService/EmailTemplateAPI/Model/IdAndJObject.cs:46 | "True" or "False" in any letter case, with any white space or NUL before and after, parses to its value |
| Json.ToBoolPadded | NotificationService/EmailTemplateAPI/Model/IdAndJObject.cs:46 | `ToObject<bool>()` of such a padded string token gives that value |
| Json.ToBoolLeadingSpace | NotificationService/EmailTemplateAPI/Model/IdAndJObject.cs:46 | `" true"` is read as true |
| Json.ToBoolTrailingLineBreak | NotificationService/EmailTemplateAPI/Model/IdAndJObject.cs:46 | `"false"` followed by a line break is read as false |
| Json.ToBoolTrailingNull | NotificationService/EmailTemplateAPI/Model/IdAndJObject.cs:46 | `"True"` followed by NUL is read as true |
| Json.ToBoolInnerSpace | NotificationService/EmailTemplateAPI/Model/IdAndJObject.cs:46 | white space inside the word is not trimmed: `"t rue"` raises `FormatException` |
| Strings.TrimPadded | NotificationService/EmailTemplateAPI/Model/IdAndJObject.cs:46 | trimming white space and NUL from a padded text gives back the text, when it neither starts nor ends with such a character |
| Json.TextEscapes | NotificationService/EmailSenderAPI/Model/IdAndJObject.cs:61 | a quote and a line break inside a nested string value are written escaped, as `\"` and `\n` |
| EmailTemplatePayload.ToJsonData | NotificationService/EmailTemplateAPI/Model/IdAndJObject.cs:42 | deserializing the details succeeds exactly when none of the nine members matches an object or array value |
| EmailTemplatePayload.ToIdAndEmailActivity | NotificationService/EmailTemplateAPI/Model/IdAndJObject.cs:34-49 | the id is copied; keys are looked up exactly in PascalCase; succeeds exactly when all six succeed; otherwise the first failing key in source order raises `InvalidOperationException`; `LinksEnabled` is read by `ToObject<bool>()`, so a string holding "True" or "False" in any letter case and padded with white space or NUL is accepted (`Json.ParseBool`) |
| EmailTemplatePayload.LinksEnabledMandatory | NotificationService/EmailTemplateAPI/Model/IdAndJObject.cs:46 | a payload without `LinksEnabled` is rejected, and with the other five present the error names `LinksEnabled` |
| EmailTemplatePayload.NullLinksEnabledRejected | NotificationService/EmailTemplateAPI/Model/IdAndJObject.cs:46 | a JSON null `LinksEnabled` is rejected as well |
| EmailTemplatePayload.DecodesPayload | NotificationService/EmailTemplateAPI/Model/IdAndJObject.cs:34-49 | a payload with the six PascalCase keys decodes to the activity it carries |
| EmailTemplatePayload.JsonDataRoundTrip | NotificationService/EmailTemplateAPI/Model/IdAndJObject.cs:42 | details written with camelCase names read back as the same nine members |
| EmailTemplatePayload.LaterDuplicateWins | NotificationService/EmailTemplateAPI/Model/IdAndJObject.cs:42 | with `caseid` and `CASEID` both present, the later value is the one read |
| NotificationPayload.ToJsonData | NotificationService/NotificationAPI/Model/IdAndJObject.cs:41 | deserializing the details succeeds exactly when none of the four members matches an object or array value |
| NotificationPayload.ToIdAndMessage | NotificationService/NotificationAPI/Model/IdAndJObject.cs:33-47 | the id is copied; keys are looked up exactly in camelCase; succeeds exactly when all five succeed, each field its lookup; otherwise the first failing key raises `InvalidOperationException` |
| NotificationPayload.ActivityTypeKeyExact | NotificationService/NotificationAPI/Model/IdAndJObject.cs:40 | a payload without the exact key `activityType` is rejected with "ActivityType is required" |
| NotificationPayload.NullJsonDataRejected | NotificationService/NotificationAPI/Model/IdAndJObject.cs:41 | a JSON null `jsonData` is rejected with "JsonData is required" |
| NotificationPayload.DecodesPayload | NotificationService/NotificationAPI/Model/IdAndJObject.cs:33-47 | a payload with the five camelCase keys decodes to the message it carries |
| NotificationPayload.JsonDataRoundTrip | NotificationService/NotificationAPI/Model/IdAndJObject.cs:41 | details serialized under their member names read back unchanged |
| NotificationDto.ToNotification | NotificationService/NotificationAPI/Model/NotificationFromJavaDto.cs:75-87 | id, users, type, summary, read flag and post date are copied unchanged |
| NotificationDto.ToNotificationDropsAddresses | NotificationService/NotificationAPI/Model/NotificationFromJavaDto.cs:75-87 | DTOs differing only in their addresses give the same notification |
| NotificationDto.ToMessage | NotificationService/NotificationAPI/Model/NotificationFromJavaDto.cs:93-109 | a null summary cannot be indexed; otherwise the user name is the feed user, type and addresses are copied and the details come from the summary keys |
| NotificationDto.SummaryTextNullIffMissing | NotificationService/NotificationAPI/Model/NotificationFromJavaDto.cs:98-104 | a detail is null exactly when its key is missing from the summary |
| NotificationDto.MessageMatchesEntity | NotificationService/NotificationAPI/Model/NotificationFromJavaDto.cs:75-109 | the message and the stored notification agree on type and user |
| NotificationRepository.WrapInt32 | NotificationService/NotificationAPI/Repositories/NotificationRepository.cs:75 | unchecked C# `int` arithmetic: the result is in the 32-bit range and congruent to the input modulo 2^32 |
| NotificationRepository.OffsetWrapsToFirstPage | NotificationService/NotificationAPI/Repositories/NotificationRepository.cs:75 | the offset as written wraps: page 65537 of size 65536 gives offset 0, where 2^32 is meant |
| NotificationRepository.OffsetAgreesWithoutOverflow | NotificationService/NotificationAPI/Repositories/NotificationRepository.cs:75 | without overflow the written offset is `(page - 1) * pageSize` |
| NotificationRepository.Offset | NotificationService/NotificationAPI/Repositories/NotificationRepository.cs:75 | the offset is non-negative from page 1 on and negative before it |
| NotificationRepository.TotalPagesIsCeiling | NotificationService/NotificationAPI/Repositories/NotificationRepository.cs:72 | the page count is the least number of pages that hold every item |
| NotificationRepository.WhereMonotone | NotificationService/NotificationAPI/Repositories/NotificationRepository.cs:65-70 | a weaker filter keeps at least as many rows |
| NotificationRepository.UnreadAtMostTotal | NotificationService/NotificationAPI/Repositories/NotificationRepository.cs:199-213 | a user's unread count is at most their total count |
| NotificationRepository.FindById | NotificationService/NotificationAPI/Repositories/NotificationRepository.cs:37-55 | null exactly when no row has the id; otherwise a row of the table with that id |
| NotificationRepository.CreatedIsFound | NotificationService/NotificationAPI/Repositories/NotificationRepository.cs:105-133 | a created row is stored under its own id, or a fresh one when its id is empty, and found by that id |
| NotificationRepository.Updated | NotificationService/NotificationAPI/Repositories/NotificationRepository.cs:136-164 | every row with the notification's id takes its other columns; the rest are unchanged |
| NotificationRepository.UpdatedIsFound | NotificationService/NotificationAPI/Repositories/NotificationRepository.cs:136-164 | after updating a stored id, looking that id up gives exactly the new notification |
| NotificationRepository.UpdateAbsentUnchanged | NotificationService/NotificationAPI/Repositories/NotificationRepository.cs:136-164 | updating an id that is not stored leaves the table as it was |
| NotificationRepository.UpdatedKeepsOtherUsers | NotificationService/NotificationAPI/Repositories/NotificationRepository.cs:136-164 | a user who is neither the new feed user nor the owner of a row with the id keeps the same rows and the same unread rows |
| NotificationRepository.DeleteRemovesExactly | NotificationService/NotificationAPI/Repositories/NotificationRepository.cs:167-177 | exactly the rows with the id are removed; an absent id changes nothing |
| NotificationRepository.MarkedRead | NotificationService/NotificationAPI/Repositories/NotificationRepository.cs:180-190 | the rows with the id become read; the rest are unchanged |
| NotificationRepository.MarkAsReadCounts | NotificationService/NotificationAPI/Repositories/NotificationRepository.cs:180-190 | marking read is idempotent, keeps every user's total and never raises an unread count |
| NotificationRepository.SortByDate | NotificationService/NotificationAPI/Repositories/NotificationRepository.cs:78-83 | `ORDER BY post_date DESC` is a permutation of the rows |
| NotificationRepository.SortByDateOrders | NotificationService/NotificationAPI/Repositories/NotificationRepository.cs:78-83 | the sorted rows are newest first |
| NotificationRepository.PagesArePrefix | NotificationService/NotificationAPI/Repositories/NotificationRepository.cs:75-83 | the first n pages are the first n·pageSize rows |
| NotificationRepository.PagesCoverRows | NotificationService/NotificationAPI/Repositories/NotificationRepository.cs:72-83 | over one fixed order of the rows, the pages up to the page count hold every row exactly once, in order; `DateOrderUnique` says when every page query uses that order |
| NotificationRepository.SameNewestFirstOrder | NotificationService/NotificationAPI/Repositories/NotificationRepository.cs:82 | two newest-first arrangements of the same rows are equal when no two different rows share a post date |
| NotificationRepository.DateOrderUnique | NotificationService/NotificationAPI/Repositories/NotificationRepository.cs:78-83 | with distinct post dates, every order `ORDER BY post_date DESC` may return is the model's sorted order, so separately queried pages share it |
| NotificationRepository.TiedDatesPagesMayRepeat | NotificationService/NotificationAPI/Repositories/NotificationRepository.cs:78-83 | with two rows of equal post date both orders satisfy `ORDER BY post_date DESC`, and pages 1 and 2 taken from different ones show one row twice and the other never |
| NotificationRepository.PagesBeyondEmpty | NotificationService/NotificationAPI/Repositories/NotificationRepository.cs:72-83 | every page after the page count is empty |
| NotificationRepository.ForUserPage | NotificationService/NotificationAPI/Repositories/NotificationRepository.cs:58-102 | a request succeeds exactly when the page size is positive and the 32-bit offset is not negative; a page then holds only the user's rows, newest first, at most pageSize of them; the total counts all the user's rows and the page count is its ceiling |
| NotificationRepository.ForUserAgreesWithoutOverflow | NotificationService/NotificationAPI/Repositories/NotificationRepository.cs:75 | when `(page - 1) * pageSize` fits in 32 bits, the request as written is the intended one |
| NotificationRepository.ForUserWrapsToFirstPage | NotificationService/NotificationAPI/Repositories/NotificationRepository.cs:75-83 | page 65537 of size 65536 returns the same response as page 1, where the intended request returns an empty page |
| NotificationRepository.ForUserWrapsNegative | NotificationService/NotificationAPI/Repositories/NotificationRepository.cs:75-83 | page 40000 of size 60000 wraps to a negative offset and the query fails, where the intended request succeeds |
| NotificationRepository.IntendedPagesBeyondEmpty | NotificationService/NotificationAPI/Repositories/NotificationRepository.cs:72-83 | with the intended offset, every page after the page count succeeds and is empty |
| NotificationRepository.NotificationRepository.GetByIdAsync | NotificationService/NotificationAPI/Repositories/NotificationRepository.cs:37-55 | a missing tenant database fails; otherwise the row with the id or null |
| NotificationRepository.NotificationRepository.GetForUserAsync | NotificationService/NotificationAPI/Repositories/NotificationRepository.cs:58-102 | a missing tenant database fails; otherwise the result is `ForUser` on the tenant's table: the offset wrapped to 32 bits, a negative offset or page size rejected, and the page, total and page count of the rest |
| NotificationRepository.NotificationRepository.ReadPage | NotificationService/NotificationAPI/Repositories/NotificationRepository.cs:89-93 | reading the ordered result row by row gives exactly the rows from the offset on, at most pageSize of them |
| NotificationRepository.NotificationRepository.CreateAsync | NotificationService/NotificationAPI/Repositories/NotificationRepository.cs:105-133 | a null summary fails and changes nothing; otherwise the row is appended with a fresh id when its id is empty |
| NotificationRepository.NotificationRepository.UpdateAsync | NotificationService/NotificationAPI/Repositories/NotificationRepository.cs:136-164 | a null summary fails; otherwise the rows with the id are overwritten and the notification is returned |
| NotificationRepository.NotificationRepository.DeleteAsync | NotificationService/NotificationAPI/Repositories/NotificationRepository.cs:167-177 | the rows with the id are removed |
| NotificationRepository.NotificationRepository.MarkAsReadAsync | NotificationService/NotificationAPI/Repositories/NotificationRepository.cs:180-190 | the rows with the id are marked read |
| NotificationRepository.NotificationRepository.GetUnreadCountForUserAsync | NotificationService/NotificationAPI/Repositories/NotificationRepository.cs:193-204 | the number of the user's unread rows |
| NotificationRepository.NotificationRepository.GetTotalCountForUserAsync | NotificationService/NotificationAPI/Repositories/NotificationRepository.cs:207-218 | the number of the user's rows |
| NotificationService.OrUnknown | NotificationService/NotificationAPI/Services/NotificationService/NotificationService.cs:211-214 | `summary[key]?.ToString() ?? "Unknown"`: the key's text when present, "Unknown" when absent |
| NotificationService.PublishPayload | NotificationService/NotificationAPI/Services/NotificationService/NotificationService.cs:206-219 | a null summary cannot be indexed; otherwise the payload carries type, details, feed user and addresses under camelCase keys |
| NotificationService.PublishedPayloadDecodes | NotificationService/NotificationAPI/Services/NotificationService/NotificationService.cs:206-219 | what is published decodes, at the notification stage, to the DTO's message with "Unknown" for each missing detail |
| NotificationService.UnknownOnlyForMissingKey | NotificationService/NotificationAPI/Services/NotificationService/NotificationService.cs:211-214 | a published detail is "Unknown" when its key is missing and the key's text otherwise |
| NotificationService.EmailNotificationDecodes | NotificationService/NotificationAPI/Services/NotificationService/NotificationService.cs:163-173 | what `CreateEmailNotification` sends decodes, at the template stage, to the message's fields, its details widened to nine members, and the flag |
| NotificationService.SharedMembersRead | NotificationService/NotificationAPI/Services/NotificationService/NotificationService.cs:163-169 | the four shared details reach the template stage unchanged |
| NotificationService.OtherMembersNull | NotificationService/NotificationAPI/Services/NotificationService/NotificationService.cs:163-169 | the five details this stage does not have arrive as null |
| NotificationService.PublishResult | NotificationService/NotificationAPI/Services/NotificationService/NotificationService.cs:245-258 | a failure status is not an error; an exception is rethrown |
| NotificationService.NotificationService.CreateAsync | NotificationService/NotificationAPI/Services/NotificationService/NotificationService.cs:72-90 | the converted notification is stored first; a failed store publishes nothing; then the DTO is published |
| NotificationService.NotificationService.PublishToMessageQueue | NotificationService/NotificationAPI/Services/NotificationService/NotificationService.cs:197-259 | posts the payload to the `NotificationInitialized` address with the tenant header, logs a failure status and rethrows an exception |
| NotificationService.NotificationService.CreateEmailNotification | NotificationService/NotificationAPI/Services/NotificationService/NotificationService.cs:159-195 | posts the e-mail notification to the `EmailTemplateShouldBePopulated` address and returns the response content; an exception is logged and rethrown |
| NotificationService.StoredPostDateIsDtos | NotificationService/NotificationAPI/Services/NotificationService/NotificationService.cs:80-89 | the stored row carries the DTO's post date, even 0 |
| NotificationPreferences.GetProperty | NotificationService/NotificationAPI/Services/NotificationPreferencesService/NotificationPreferencesService.cs:41 | reflection finds a property exactly for the five exact public names |
| NotificationPreferences.GetNotificationPreferenceObjectByUsernameAsync | NotificationService/NotificationAPI/Services/NotificationPreferencesService/NotificationPreferencesService.cs:55-58 | the repository's preference for the user, or null, unchanged |
| NotificationPreferences.Get1BoolByUsernameAsync | NotificationService/NotificationAPI/Services/NotificationPreferencesService/NotificationPreferencesService.cs:34-48 | a missing preference fails with a null reference |
| NotificationPreferences.FlagsReadFromPreference | NotificationService/NotificationAPI/Services/NotificationPreferencesService/NotificationPreferencesService.cs:41-45 | the four flags are read from the user's preference |
| NotificationPreferences.UnknownNameIsFalse | NotificationService/NotificationAPI/Services/NotificationPreferencesService/NotificationPreferencesService.cs:47 | a name that matches no property gives false |
| NotificationPreferences.CamelCaseIsFalse | NotificationService/NotificationAPI/Services/NotificationPreferencesService/NotificationPreferencesService.cs:38-41 | lookup is case-sensitive: "caseOwner" gives false |
| NotificationPreferences.UserNameCastFails | NotificationService/NotificationAPI/Services/NotificationPreferencesService/NotificationPreferencesService.cs:44 | the user name property fails the cast to bool |
| EmailTemplates.FirstWithId | NotificationService/EmailTemplateAPI/EmailTemplateRepository.cs:45 | `FirstOrDefault(t => t.Id == id)`: null exactly when no template has the id, otherwise the first that has it |
| EmailTemplates.AppendKeepsFirst | NotificationService/EmailTemplateAPI/EmailTemplateRepository.cs:45-48 | appending never changes what an id already finds, so a duplicate id never shadows the earlier entry |
| TemplateRepository.EmailTemplateRepository.constructor | NotificationService/EmailTemplateAPI/EmailTemplateRepository.cs:39 | a new repository is empty |
| TemplateRepository.EmailTemplateRepository.GetAll | NotificationService/EmailTemplateAPI/EmailTemplateRepository.cs:42 | all templates, in insertion order |
| TemplateRepository.EmailTemplateRepository.GetById | NotificationService/EmailTemplateAPI/EmailTemplateRepository.cs:45 | the first template with the id, or null |
| TemplateRepository.EmailTemplateRepository.Add | NotificationService/EmailTemplateAPI/EmailTemplateRepository.cs:48 | the template is appended; earlier entries are unchanged |
| StandaloneTemplateRepository.EmailTemplateRepository.constructor | EmailTemplateAPI/EmailTemplateRepository.cs:10 | a new repository is empty |
| StandaloneTemplateRepository.EmailTemplateRepository.GetAll | EmailTemplateAPI/EmailTemplateRepository.cs:12 | all templates, in insertion order |
| StandaloneTemplateRepository.EmailTemplateRepository.GetById | EmailTemplateAPI/EmailTemplateRepository.cs:14 | the first template with the id, or null |
| StandaloneTemplateRepository.EmailTemplateRepository.Add | EmailTemplateAPI/EmailTemplateRepository.cs:16 | the template is appended; earlier entries are unchanged |
| EmailTemplateService.TemplatePath | NotificationService/EmailTemplate/EmailTemplateAPI/EmailTemplateService.cs:31 | the path is the system-template directory, then the template name, then ".html" |
| EmailTemplateService.SubstituteFirstFieldFirst | NotificationService/EmailTemplate/EmailTemplateAPI/EmailTemplateService.cs:34-37 | fields are substituted in list order: the first field's placeholders are replaced first, on the text as read |
| EmailTemplateService.SubstituteAbsent | NotificationService/EmailTemplate/EmailTemplateAPI/EmailTemplateService.cs:34-37 | an empty field list, or fields whose placeholders do not occur, leave the text unchanged |
| EmailTemplateService.SubstituteOneField | NotificationService/EmailTemplate/EmailTemplateAPI/EmailTemplateService.cs:36 | the leftmost `{{field}}` becomes the field name, the text before it is kept and the rest is substituted likewise |
| EmailTemplateService.NestedPlaceholderSurvives | NotificationService/EmailTemplate/EmailTemplateAPI/EmailTemplateService.cs:34-37 | one pass does not rescan: `{{{{n}}}}` becomes `{{n}}` |
| EmailTemplateService.EmailTemplateService.GetAllTemplates | NotificationService/EmailTemplate/EmailTemplateAPI/EmailTemplateService.cs:23 | the repository's templates, unchanged |
| EmailTemplateService.EmailTemplateService.GetTemplateById | NotificationService/EmailTemplate/EmailTemplateAPI/EmailTemplateService.cs:25 | the repository's first template with the id, or null |
| EmailTemplateService.EmailTemplateService.CreateTemplate | NotificationService/EmailTemplate/EmailTemplateAPI/EmailTemplateService.cs:27 | the repository appends the template |
| EmailTemplateService.EmailTemplateService.PopulateSystemEmail | NotificationService/EmailTemplate/EmailTemplateAPI/EmailTemplateService.cs:29-45 | a missing template file fails naming its path; otherwise the e-mail has the fixed to, from and subject and the template with every field substituted in list order as its body |

## Left out

- I/O:
  - PostgreSQL, Npgsql, HTTP and Dapr calls are not executed.
  - A database command's failure, an HTTP reply, the queue store's replies, the SQL and template files, a fresh GUID and the clock are parameters.
- Logging is not modelled, except the log entries the notification service's own contracts mention.
- Concurrency is not modelled, including the non-thread-safe inserter and processor caches and concurrent onboarding of one tenant.
- The queue store's insert, take-for-processing and mark-done are not modelled. They live in a library that is not part of this model. The façades record each call and return the store's reply, with no pending, claimed or done states.
- URI parsing is cut down:
  - it keeps only `scheme://authority`, with ASCII lower-casing;
  - user information, default-port removal and IDN handling are not modelled.
- Connection strings are held in parsed form (`ConnectionSettings.Settings`). Npgsql's parsing and rendering of connection strings is not modelled.
- SQL scripts and engine behaviour:
  - The contents of the SQL scripts are not part of this model. The record scripts are taken to insert and delete the tenant's control-plane record.
  - PostgreSQL's folding of unquoted identifiers in `CREATE DATABASE` and `DROP DATABASE` is not modelled.
- Case-insensitive comparison folds ASCII letters only; culture-specific and Unicode case rules are not modelled.
- JSON:
  - numbers are integers; floating point, dates and the other Newtonsoft token types are not modelled;
  - `ToString()` of an object or an array writes `Environment.NewLine` as `"\n"`, its value on Linux; on Windows it is `"\r\n"`;
  - Newtonsoft's conversion of non-string values to string members is reduced to the value's text.
- `ReadNotification`: storing `ActivitySummary` as text and parsing it back is taken to give the same object.
- C# null strings are not modelled. DTO, message and request strings are non-null; null JSON values and null lookups are modelled as `Option`.
- A query against a tenant whose database does not exist fails with one storage error (`NotificationRepository.NoDatabase`). Npgsql's actual exception is not modelled.
- NotificationRepository.ForUser: requires `pageSize != 0`. With a zero page size the source divides a `double` by zero and casts the infinite or NaN result to `long`, which is not modelled. A negative page size is modelled: PostgreSQL rejects the negative `LIMIT` (`NegativeLimit`).
- NotificationRepository.NotificationRepository.GetForUserAsync: requires `pageSize != 0`, for the same reason as `ForUser`.
- NotificationRepository.PagesCoverRows: holds for the source only when the user's rows have distinct post dates (`DateOrderUnique`). Each page is a separate query, and with tied dates two queries may order the tied rows differently, so a row can appear on two pages or on none (`TiedDatesPagesMayRepeat`).
- NotificationRepository.TotalPages: `Math.Ceiling` over `double` is modelled as integer ceiling division, which agrees with it for item counts below 2^53.
- NotificationRepository.NotificationRepository.CreateAsync: a row with an id already in the table is appended. The table's key constraint is not part of this model.
- NotificationRepository.SortByDate: SQL leaves the order of rows with equal `post_date` unspecified. The model keeps table order for them (a stable sort).
- The notification service's other public methods (get, update, delete, mark as read, the two counts) pass straight through to the repository with logging. Only the repository's operations are modelled.
- TemplateRepository.EmailTemplateRepository.GetAll, StandaloneTemplateRepository.EmailTemplateRepository.GetAll: the source returns its live `List` and `GetById` the stored object, so a caller can change the repository through them; the model returns values, and that aliasing is not modelled.
- `PublishTestEmailToDaprQueue` is a Dapr publish, which is network I/O, and is not modelled.
- Handlebars rendering and the template stage's file-based `EmailTemplateService` are library calls plus file I/O, and are not modelled.
- The `EmailTemplate` class is not part of this model. A template is its `Id` plus opaque content.
- The template service's repository is the stand-alone in-memory repository, because both it and the service are declared without a namespace.
- The preference repository is a map from user name to preference. The repository's tenant argument, which the service does not pass, is not modelled.
- `File.ReadAllText` failures are all modelled as `FileNotFoundException`, whichever the cause: a missing file, a missing directory or an access error.
- Localization.Format: only `{n}` format items are modelled. Alignment and format-string components such as `{0,5}` or `{0:x}` are rejected instead of being applied.
- The post-date default in the notification service's `CreateAsync` is applied to a local copy after publishing and has no observable effect, so only its absence from the stored row is stated.

## Findings

| source | as written | input that shows it | evidently intended | confidence | as-written member | corrected member |
|---|---|---|---|---|---|---|
| NotificationService/NotificationAPI/Repositories/NotificationRepository.cs:75 | `(page - 1) * pageSize` is computed in unchecked 32-bit `int` arithmetic and wraps around | `page = 65537`, `pageSize = 65536`: the offset wraps to 0, so the request repeats the first page; `page = 40000`, `pageSize = 60000`: the offset wraps negative and the query fails | the offset of the rows of all earlier pages, `(page - 1) * pageSize` without wrap-around, so that a page past the end is empty | not executed | NotificationRepository.ForUserWrapsToFirstPage | NotificationRepository.IntendedPagesBeyondEmpty |
