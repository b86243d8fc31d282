# Facebook Lead Ads to FluentCRM, modelled in Dafny

The repository holds three WordPress plugins. Each receives leads from Facebook Lead Ads and
stores them as FluentCRM contacts:

- **Facebook Leads for FluentCRM** (`facebookleadsiperfexcrm/facebook-leads-fluentcrm/includes`,
  namespace `FacebookLeadsFluentCRM`). A REST endpoint takes a JSON lead. A shared secret lets the
  caller in. The lead's fields are normalized and mapped through `source=target` mappings, and the
  contact is upserted by email. Its settings page renders the stored settings as a form, and the
  sanitizer stores what the form posts back.
- **FluentCRM Facebook Leads** (`fluentcrm-facebook-leads/includes`, namespace `FLFBL`). It has the
  Graph API verification handshake and a webhook that names a lead id. It fetches the lead, then
  normalizes, maps and matches it against existing contacts by email, then by phone. It creates or
  fills the contact, then syncs custom fields, tags and lists.
- **The `includes/` plugin.** Its admin actions save the field mapping, exchange and store access
  tokens, refresh the page list and subscribe or unsubscribe pages. Its webhook controller has its
  own handshake.

## Model layout

Each plugin file is its own module. PHP's semantics are modelled once and shared.

| module | file | models |
|---|---|---|
| `PhpValues` | `php_values.dfy` | PHP values: null, bool, int, string, ordered array. Also array-key coercion, `$a[$k]` and writes into arrays and strings, `??`, `isset`, `empty` |
| `OrderedMap` | `ordered_map.dfy` | insertion-ordered arrays: lookup, overwrite in place, append |
| `PhpArrays` | `php_arrays.dfy` | `array_merge`, `array_replace_recursive`, `array_unique` |
| `PhpStrings` | `php_strings.dfy` | `trim`, `explode`, `implode`, `preg_split` on line breaks and on white space, `strtolower`, `intval`, `absint`, the decimal form of integers |
| `Wrappers` | `wrappers.dfy` | `Option` |
| `WordPress` | `wordpress.dfy` | `sanitize_text_field` and `sanitize_email` as uninterpreted functions, and REST responses |
| `Requests` | `requests.dfy` | how PHP names query parameters (`.` and space become `_`) |
| `CrmStore` | `crm_store.dfy` | FluentCRM's `Subscriber` and `SubscriberMeta` tables as a class with rows and a meta map |
| `Autoloader` | `autoloader.dfy` | `Autoloader.php` |
| `FcrmSettings` | `fcrm_settings.dfy` | `Services/Settings.php` |
| `FcrmSettingsPage` | `settings_page.dfy` | `Admin/SettingsPage.php` |
| `LeadMapper` | `lead_mapper.dfy` | `Services/LeadMapper.php` |
| `FluentCrmService` | `fluentcrm_service.dfy` | `Services/FluentCrmService.php` |
| `FcrmWebhook` | `fcrm_webhook.dfy` | `Rest/WebhookController.php` |
| `FlfblSettings` | `flfbl_settings.dfy` | `fluentcrm-facebook-leads/includes/class-settings.php` |
| `LeadProcessor` | `lead_processor.dfy` | `fluentcrm-facebook-leads/includes/class-lead-processor.php` |
| `FlfblWebhook` | `flfbl_webhook.dfy` | `fluentcrm-facebook-leads/includes/class-webhook-controller.php` |
| `FbLeadsWebhook` | `fb_leads_webhook.dfy` | `includes/class-webhook-controller.php` |
| `Admin` | `admin.dfy` | `includes/class-admin.php`, with `FlfblSettings.Settings` as its settings object |

### How the PHP is modelled

- **Loops become methods.** Each PHP loop that builds a result is a `method` with a `while` loop.
  The method is proved against a function, for example `ensures r == MappingsOf(san, value)`. The
  properties are lemmas about that function.
- **Stored state becomes classes.** The WordPress option of each settings class and FluentCRM's
  tables are classes whose methods change their fields.
- **Errors are outcomes.** TypeErrors and uncaught exceptions are explicit results, so the error
  paths are modelled, not excluded:
  - an array used as an array key;
  - a string read at a name such as `id` outside `isset` (PHP 8's "Cannot access offset of type string on string");
  - a `string|array` parameter given something else under `strict_types`;
  - the three exceptions of `upsert_contact`.
- **External services are parameters.** The Graph API client, `file_exists`, `class_exists` and the
  generated secret are passed in.

## Model

Paths are relative to the repository root.

| member | source | states |
|---|---|---|
| Autoloader.Slashes | facebookleadsiperfexcrm/facebook-leads-fluentcrm/includes/Autoloader.php:19 | replacing the namespace separators keeps the length and leaves no backslash |
| Autoloader.Loaded | facebookleadsiperfexcrm/facebook-leads-fluentcrm/includes/Autoloader.php:11-25 | a file is required only when it exists and is the class's path; a foreign class or a missing file loads nothing |
| Autoloader.FileShape | facebookleadsiperfexcrm/facebook-leads-fluentcrm/includes/Autoloader.php:12-20 | a class has a path iff it starts with the prefix and its separator; the path is the directory, `/`, the rest of the name with every `\` turned into `/`, and `.php` |
| Autoloader.FileInjective | facebookleadsiperfexcrm/facebook-leads-fluentcrm/includes/Autoloader.php:18-20 | two class names without slashes never resolve to the same file |
| Autoloader.NestedClassFile | facebookleadsiperfexcrm/facebook-leads-fluentcrm/includes/Autoloader.php:18-20 | `Prefix\Ns\Name` resolves to `dir/Ns/Name.php` and `Prefix\Name` to `dir/Name.php` |
| Autoloader.PrefixNeedsSeparator | facebookleadsiperfexcrm/facebook-leads-fluentcrm/includes/Autoloader.php:12-16 | a namespace that only begins with the same letters, or the bare namespace name, is not loaded |
| FcrmSettings.DefaultsGet | facebookleadsiperfexcrm/facebook-leads-fluentcrm/includes/Services/Settings.php:18-29 | the defaults hold the generated secret, empty lists, tags and mappings, and logging on, under distinct keys |
| FcrmSettings.Settings.EnsureDefaults | facebookleadsiperfexcrm/facebook-leads-fluentcrm/includes/Services/Settings.php:11-30 | a stored array is left as it is; anything else is replaced by the defaults with the given secret |
| FcrmSettings.TrimmedPieces | facebookleadsiperfexcrm/facebook-leads-fluentcrm/includes/Services/Settings.php:87 | the pieces that survive `array_filter` of the trimmed comma parts are non-empty, non-`"0"` strings |
| FcrmSettings.PositiveMembers | facebookleadsiperfexcrm/facebook-leads-fluentcrm/includes/Services/Settings.php:94-96 | the kept ids are exactly the positive ones |
| FcrmSettings.IdsOf | facebookleadsiperfexcrm/facebook-leads-fluentcrm/includes/Services/Settings.php:83-100 | the ids are exactly the positive `absint` values of the raw items, with no repeats |
| FcrmSettings.SanitizeIds | facebookleadsiperfexcrm/facebook-leads-fluentcrm/includes/Services/Settings.php:83-100 | the loop returns `IdsOf` as a list indexed from 0 |
| FcrmSettings.DecimalId | facebookleadsiperfexcrm/facebook-leads-fluentcrm/includes/Services/Settings.php:93 | the decimal of a positive id up to `PHP_INT_MAX` has no comma, is trimmed and truthy, and `absint` reads it back |
| FcrmSettings.IdsOfDecimals | facebookleadsiperfexcrm/facebook-leads-fluentcrm/includes/Services/Settings.php:83-100 | sanitizing the comma-joined decimals of distinct positive ids gives back the ids in order |
| FcrmSettings.IdsIdempotent | facebookleadsiperfexcrm/facebook-leads-fluentcrm/includes/Services/Settings.php:83-100 | sanitizing an already sanitized id list changes nothing |
| FcrmSettings.LineEntry | facebookleadsiperfexcrm/facebook-leads-fluentcrm/includes/Services/Settings.php:108-119 | a text line yields a mapping only with a non-empty string target |
| FcrmSettings.PairEntry | facebookleadsiperfexcrm/facebook-leads-fluentcrm/includes/Services/Settings.php:128-134 | an array pair yields a mapping only with a non-empty string target |
| FcrmSettings.MappingsOf | facebookleadsiperfexcrm/facebook-leads-fluentcrm/includes/Services/Settings.php:102-138 | the sources are distinct; each maps to the target of its last accepted line; every target is a non-empty string |
| FcrmSettings.SanitizeMappings | facebookleadsiperfexcrm/facebook-leads-fluentcrm/includes/Services/Settings.php:102-138 | the loops return `MappingsOf` |
| FcrmSettings.BlankLineHasNoSeparator | facebookleadsiperfexcrm/facebook-leads-fluentcrm/includes/Services/Settings.php:108-112 | a blank line holds no `=`, so skipping it loses no mapping |
| FcrmSettings.MappingsCleaned | facebookleadsiperfexcrm/facebook-leads-fluentcrm/includes/Services/Settings.php:114-133 | every stored mapping is left alone by the text cleaner, when the cleaner is idempotent |
| FcrmSettings.PairEntryOfClean | facebookleadsiperfexcrm/facebook-leads-fluentcrm/includes/Services/Settings.php:128-134 | a clean pair is kept as it is |
| FcrmSettings.MappingsIdempotent | facebookleadsiperfexcrm/facebook-leads-fluentcrm/includes/Services/Settings.php:102-138 | sanitizing stored mappings again, in their array form, gives them back |
| FcrmSettings.SanitizedGet | facebookleadsiperfexcrm/facebook-leads-fluentcrm/includes/Services/Settings.php:56-80 | the built array holds exactly the five setting names, and logging is always present |
| FcrmSettings.SanitizeOf | facebookleadsiperfexcrm/facebook-leads-fluentcrm/includes/Services/Settings.php:55-81 | sanitizing throws a TypeError iff lists, tags or mappings is set to something that is neither a string nor an array |
| FcrmSettings.SanitizeGet | facebookleadsiperfexcrm/facebook-leads-fluentcrm/includes/Services/Settings.php:55-81 | per name: the cleaned secret when set; logging as the bool cast; the sanitized ids and mappings when set; nothing else |
| FcrmSettings.SanitizeOfSanitized | facebookleadsiperfexcrm/facebook-leads-fluentcrm/includes/Services/Settings.php:55-81 | sanitizing values that are already in sanitized form gives them back |
| FcrmSettings.SanitizeIdempotent | facebookleadsiperfexcrm/facebook-leads-fluentcrm/includes/Services/Settings.php:55-81 | sanitize is idempotent when the text cleaner is and the ids are in range |
| FcrmSettings.Settings.Update | facebookleadsiperfexcrm/facebook-leads-fluentcrm/includes/Services/Settings.php:48-53 | stores `array_merge` of the stored settings and the sanitized values, or throws and leaves the option as it was |
| FcrmSettings.UpdateGet | facebookleadsiperfexcrm/facebook-leads-fluentcrm/includes/Services/Settings.php:48-81 | after an update, logging is what was submitted; the secret is the submitted one cleaned, or the stored one when none was submitted; any other name keeps its stored value |
| FcrmSettingsPage.MappingLines | facebookleadsiperfexcrm/facebook-leads-fluentcrm/includes/Admin/SettingsPage.php:177-181 | the loop builds the concatenation of the lines, each ended by an end-of-line |
| FcrmSettingsPage.RenderMappings | facebookleadsiperfexcrm/facebook-leads-fluentcrm/includes/Admin/SettingsPage.php:173-187 | the textarea shows the trimmed text of the stored mappings, or of none when there are none |
| FcrmSettingsPage.PostGet | facebookleadsiperfexcrm/facebook-leads-fluentcrm/includes/Admin/SettingsPage.php:142-171 | the posted form holds the four text fields, plus `"1"` for logging only when the box is ticked |
| FcrmSettingsPage.LineEntryOfLine | facebookleadsiperfexcrm/facebook-leads-fluentcrm/includes/Admin/SettingsPage.php:180 | a rendered line of a clean mapping is one line without breaks, and it parses back to that mapping |
| FcrmSettingsPage.MappingTextTrim | facebookleadsiperfexcrm/facebook-leads-fluentcrm/includes/Admin/SettingsPage.php:186 | trimming the rendered text removes only the last end-of-line |
| FcrmSettingsPage.LinesEntries | facebookleadsiperfexcrm/facebook-leads-fluentcrm/includes/Admin/SettingsPage.php:179-186 | the lines parse back to the mappings, in order |
| FcrmSettingsPage.MappingsOfEmpty | facebookleadsiperfexcrm/facebook-leads-fluentcrm/includes/Admin/SettingsPage.php:175-186 | an empty textarea stores no mappings |
| FcrmSettingsPage.MappingsOfLines | facebookleadsiperfexcrm/facebook-leads-fluentcrm/includes/Admin/SettingsPage.php:179-186 | sanitizing the joined lines gives back the distinct mappings |
| FcrmSettingsPage.MappingsRoundTrip | facebookleadsiperfexcrm/facebook-leads-fluentcrm/includes/Admin/SettingsPage.php:173-187 | stored clean mappings, rendered and sanitized again, come back unchanged |
| FcrmSettingsPage.FieldTextOfIds | facebookleadsiperfexcrm/facebook-leads-fluentcrm/includes/Admin/SettingsPage.php:154 | an id list is shown as its comma-joined decimals |
| FcrmSettingsPage.FormPostOfStored | facebookleadsiperfexcrm/facebook-leads-fluentcrm/includes/Admin/SettingsPage.php:142-187 | the form for sanitized settings posts the secret, the joined ids, the trimmed mapping text and the logging box |
| FcrmSettingsPage.FormPostOf | facebookleadsiperfexcrm/facebook-leads-fluentcrm/includes/Admin/SettingsPage.php:142-187 | the same form for any stored settings array holding those values |
| FcrmSettingsPage.LookupOfSet | facebookleadsiperfexcrm/facebook-leads-fluentcrm/includes/Admin/SettingsPage.php:145 | a set value is read, not its default |
| FcrmSettingsPage.SanitizeOfText | facebookleadsiperfexcrm/facebook-leads-fluentcrm/includes/Admin/SettingsPage.php:112-120 | a posted form of texts is sanitized into the cleaned secret, the checkbox as a bool, and the parsed ids and mappings |
| FcrmSettingsPage.PostSanitizes | facebookleadsiperfexcrm/facebook-leads-fluentcrm/includes/Admin/SettingsPage.php:112-120 | sanitizing the form posted for stored settings gives back those settings |
| FcrmSettingsPage.FormRoundTrip | facebookleadsiperfexcrm/facebook-leads-fluentcrm/includes/Admin/SettingsPage.php:112-120 | when the page is saved unchanged, the sanitize callback returns exactly the stored settings (a secret holding an HTML entity is not covered; see Left out) |
| FcrmSettingsPage.FieldsOfStored | facebookleadsiperfexcrm/facebook-leads-fluentcrm/includes/Admin/SettingsPage.php:142-162 | the checkbox is ticked iff the stored value is set and truthy; a missing text field shows the empty string |
| LeadMapper.StringifySingle | facebookleadsiperfexcrm/facebook-leads-fluentcrm/includes/Services/LeadMapper.php:63-69 | a one-element array stringifies as its element does |
| LeadMapper.StringifyPair | facebookleadsiperfexcrm/facebook-leads-fluentcrm/includes/Services/LeadMapper.php:65 | two elements are cleaned and joined by `", "` |
| LeadMapper.StringifyAppend | facebookleadsiperfexcrm/facebook-leads-fluentcrm/includes/Services/LeadMapper.php:64-66 | no answers give `""`; one answer more adds `", "` and that answer, cleaned, at the end, for any number of answers |
| PhpStrings.ImplodeAppend | facebookleadsiperfexcrm/facebook-leads-fluentcrm/includes/Services/LeadMapper.php:65 | joining one part more adds the separator and that part at the end |
| LeadMapper.LastWrite | facebookleadsiperfexcrm/facebook-leads-fluentcrm/includes/Services/LeadMapper.php:21-25 | the index of the last step that writes a key, or none when no step does |
| LeadMapper.RunThrows | facebookleadsiperfexcrm/facebook-leads-fluentcrm/includes/Services/LeadMapper.php:21-25 | a sequence of writes fails iff one of its steps throws |
| LeadMapper.RunGet | facebookleadsiperfexcrm/facebook-leads-fluentcrm/includes/Services/LeadMapper.php:21-25 | after the writes, each key holds the value of its last write, or its old value |
| LeadMapper.ItemStep | facebookleadsiperfexcrm/facebook-leads-fluentcrm/includes/Services/LeadMapper.php:48-49 | a `field_data` item never throws and never writes null |
| LeadMapper.ItemSteps | facebookleadsiperfexcrm/facebook-leads-fluentcrm/includes/Services/LeadMapper.php:47-51 | one step per item, none of which throws |
| LeadMapper.NormalizeFields | facebookleadsiperfexcrm/facebook-leads-fluentcrm/includes/Services/LeadMapper.php:43-61 | the method returns the normalized fields |
| LeadMapper.CollectItems | facebookleadsiperfexcrm/facebook-leads-fluentcrm/includes/Services/LeadMapper.php:46-52 | the loop collects the `field_data` items |
| LeadMapper.AddTopLevel | facebookleadsiperfexcrm/facebook-leads-fluentcrm/includes/Services/LeadMapper.php:54-58 | the loop adds the top-level string keys that are not yet set |
| LeadMapper.FromItemsGet | facebookleadsiperfexcrm/facebook-leads-fluentcrm/includes/Services/LeadMapper.php:46-52 | a name holds `values[0]` of its last item, and never null |
| LeadMapper.TopLevelGet | facebookleadsiperfexcrm/facebook-leads-fluentcrm/includes/Services/LeadMapper.php:54-58 | a key already set stays; otherwise a string key takes its top-level value; an integer key gets nothing |
| LeadMapper.NormalizeGet | facebookleadsiperfexcrm/facebook-leads-fluentcrm/includes/Services/LeadMapper.php:43-61 | `field_data` wins; otherwise a string key of the payload gives its own value |
| LeadMapper.MapStep | facebookleadsiperfexcrm/facebook-leads-fluentcrm/includes/Services/LeadMapper.php:22-23 | a mapping writes only strings |
| LeadMapper.MappedThrows | facebookleadsiperfexcrm/facebook-leads-fluentcrm/includes/Services/LeadMapper.php:21-25 | mapping throws iff a mapping whose source is set has an array as its target |
| LeadMapper.MappedGet | facebookleadsiperfexcrm/facebook-leads-fluentcrm/includes/Services/LeadMapper.php:21-25 | each target holds the stringified field of the last mapping that fires for it, and only strings are written |
| LeadMapper.WithDefaultsGet | facebookleadsiperfexcrm/facebook-leads-fluentcrm/includes/Services/LeadMapper.php:27-38 | a mapped key stays; a default key that is not mapped but is a set field is filled from the field; otherwise nothing |
| LeadMapper.DefaultStep | facebookleadsiperfexcrm/facebook-leads-fluentcrm/includes/Services/LeadMapper.php:35-36 | one default key is written only when the field is set and the key is not |
| LeadMapper.Map | facebookleadsiperfexcrm/facebook-leads-fluentcrm/includes/Services/LeadMapper.php:15-41 | the method maps the normalized payload with the stored `field_mappings` |
| LeadMapper.ApplyMappings | facebookleadsiperfexcrm/facebook-leads-fluentcrm/includes/Services/LeadMapper.php:21-25 | the loop runs the mapping writes |
| LeadMapper.ApplyDefaults | facebookleadsiperfexcrm/facebook-leads-fluentcrm/includes/Services/LeadMapper.php:34-38 | the loop adds the default keys |
| LeadMapper.MapGet | facebookleadsiperfexcrm/facebook-leads-fluentcrm/includes/Services/LeadMapper.php:15-41 | per key: the last firing mapping wins; otherwise email, first_name, last_name and phone take their own field; otherwise the key is absent |
| LeadMapper.MapKeys | facebookleadsiperfexcrm/facebook-leads-fluentcrm/includes/Services/LeadMapper.php:15-41 | every mapped key is a default key or the target of a mapping |
| LeadMapper.MapDistinct | facebookleadsiperfexcrm/facebook-leads-fluentcrm/includes/Services/LeadMapper.php:15-41 | the mapped data has no duplicate keys |
| CrmStore.FirstMatch | facebookleadsiperfexcrm/facebook-leads-fluentcrm/includes/Services/FluentCrmService.php:39 | `where(...)->first()` finds the first row with that column value, and none iff no row has it |
| CrmStore.Store.Create | facebookleadsiperfexcrm/facebook-leads-fluentcrm/includes/Services/FluentCrmService.php:47 | appends one row with the next id, the data, and no lists or tags |
| CrmStore.Store.Fill | facebookleadsiperfexcrm/facebook-leads-fluentcrm/includes/Services/FluentCrmService.php:43-44 | overwrites the given attributes of that row only |
| CrmStore.Store.AttachLists | facebookleadsiperfexcrm/facebook-leads-fluentcrm/includes/Services/FluentCrmService.php:50-52 | adds the ids to that row's lists only |
| CrmStore.Store.AttachTags | facebookleadsiperfexcrm/facebook-leads-fluentcrm/includes/Services/FluentCrmService.php:54-56 | adds the ids to that row's tags only |
| CrmStore.Store.UpdateOrCreateMeta | fluentcrm-facebook-leads/includes/class-lead-processor.php:185-193 | sets the meta of (subscriber, key) to the value; rows unchanged |
| FluentCrmService.SavedRows | facebookleadsiperfexcrm/facebook-leads-fluentcrm/includes/Services/FluentCrmService.php:39-48 | the saved contact is a row of the table |
| FluentCrmService.AttachedRows | facebookleadsiperfexcrm/facebook-leads-fluentcrm/includes/Services/FluentCrmService.php:50-56 | attaching adds no row |
| FluentCrmService.UpsertOf | facebookleadsiperfexcrm/facebook-leads-fluentcrm/includes/Services/FluentCrmService.php:24-59 | a successful upsert names a row of the table |
| FluentCrmService.UpsertContact | facebookleadsiperfexcrm/facebook-leads-fluentcrm/includes/Services/FluentCrmService.php:24-59 | the method's answer and new rows are those of `UpsertOf`; meta unchanged |
| FluentCrmService.UpsertFailures | facebookleadsiperfexcrm/facebook-leads-fluentcrm/includes/Services/FluentCrmService.php:18-35 | 'FluentCRM is required' iff FluentCRM is missing; 'Email is required' iff the email is empty; 'Invalid email' iff it cleans to `""`; otherwise success; a failure changes no row |
| FluentCrmService.AttachedOnly | facebookleadsiperfexcrm/facebook-leads-fluentcrm/includes/Services/FluentCrmService.php:50-56 | only that row's list and tag sets change, each only when ids are given |
| FluentCrmService.UpsertFillsMatch | facebookleadsiperfexcrm/facebook-leads-fluentcrm/includes/Services/FluentCrmService.php:39-44 | an existing contact is filled with every data key but email, and no row is added |
| FluentCrmService.CreatedGet | facebookleadsiperfexcrm/facebook-leads-fluentcrm/includes/Services/FluentCrmService.php:37-47 | a created contact carries the cleaned email, the data's status or `subscribed`, and the rest of the data |
| FluentCrmService.UpsertCreates | facebookleadsiperfexcrm/facebook-leads-fluentcrm/includes/Services/FluentCrmService.php:45-48 | with no match, a new last row with the next id holds those attributes; earlier rows stay |
| FluentCrmService.SavedHasEmail | facebookleadsiperfexcrm/facebook-leads-fluentcrm/includes/Services/FluentCrmService.php:37-48 | the saved row carries the email; every other row stays |
| FluentCrmService.SavedFirst | facebookleadsiperfexcrm/facebook-leads-fluentcrm/includes/Services/FluentCrmService.php:39-48 | the saved row is the first row with that email |
| FluentCrmService.AttachedFirst | facebookleadsiperfexcrm/facebook-leads-fluentcrm/includes/Services/FluentCrmService.php:50-56 | attaching lists and tags keeps it the first row with that email |
| FluentCrmService.UpsertStoresEmail | facebookleadsiperfexcrm/facebook-leads-fluentcrm/includes/Services/FluentCrmService.php:31-47 | the returned contact carries the cleaned email |
| FluentCrmService.UpsertNoDuplicate | facebookleadsiperfexcrm/facebook-leads-fluentcrm/includes/Services/FluentCrmService.php:39-48 | upserting the same data again returns the same contact and adds no row |
| FcrmWebhook.Authorized | facebookleadsiperfexcrm/facebook-leads-fluentcrm/includes/Rest/WebhookController.php:85-98 | never with an empty configured secret; with a non-empty `secret` parameter, iff it equals the secret; otherwise iff the header is non-empty and equals it |
| FcrmWebhook.ParamWins | facebookleadsiperfexcrm/facebook-leads-fluentcrm/includes/Rest/WebhookController.php:87-91 | once the parameter is non-empty the header does not matter |
| FcrmWebhook.Handle | facebookleadsiperfexcrm/facebook-leads-fluentcrm/includes/Rest/WebhookController.php:50-83 | the method's answer and new rows are those of `HandleOf` |
| FcrmWebhook.Process | facebookleadsiperfexcrm/facebook-leads-fluentcrm/includes/Rest/WebhookController.php:63-82 | past the two checks: map outside the `try`, then save |
| FcrmWebhook.Save | facebookleadsiperfexcrm/facebook-leads-fluentcrm/includes/Rest/WebhookController.php:65-82 | the `try` block: any failure, including non-array lists or tags, is a 500; a saved contact is a 200 |
| FcrmWebhook.HandleStatus | facebookleadsiperfexcrm/facebook-leads-fluentcrm/includes/Rest/WebhookController.php:50-83 | 401 iff not authorized; 400 iff authorized with a body that is not an array; every reply is 200; no other answer changes a row |
| FcrmWebhook.HandleSuccess | facebookleadsiperfexcrm/facebook-leads-fluentcrm/includes/Rest/WebhookController.php:63-82 | a 200 names a stored contact that carries the cleaned email of the mapped data |
| FlfblSettings.DefaultFieldMapWellFormed | fluentcrm-facebook-leads/includes/class-settings.php:22-41 | the default field map has eighteen distinct keys |
| FlfblSettings.DefaultsWellFormed | fluentcrm-facebook-leads/includes/class-settings.php:13-47 | the defaults are a well-formed array whose `field_map` is the default field map |
| FlfblSettings.AllOf | fluentcrm-facebook-leads/includes/class-settings.php:49-56 | with nothing stored, or no array stored, `all()` is the defaults |
| FlfblSettings.AllWellFormed | fluentcrm-facebook-leads/includes/class-settings.php:49-56 | `all()` is a well-formed array |
| FlfblSettings.AllGet | fluentcrm-facebook-leads/includes/class-settings.php:55 | the keys are those of the defaults followed by the new stored ones; each value is the stored one replacing the default recursively |
| FlfblSettings.DefaultFieldMapSurvives | fluentcrm-facebook-leads/includes/class-settings.php:55 | each default field-map key stays in `all()`, with its default target when the stored map does not name it |
| FlfblSettings.OverFieldMap | fluentcrm-facebook-leads/includes/class-settings.php:55 | replacing a field map keeps its keys, and those not replaced keep their value |
| FlfblSettings.WriteAll | fluentcrm-facebook-leads/includes/class-settings.php:67-69 | the loop writes every value over the settings |
| FlfblSettings.Settings.Update | fluentcrm-facebook-leads/includes/class-settings.php:64-72 | stores and returns `all()` overwritten by the values |
| FlfblSettings.UpdateGet | fluentcrm-facebook-leads/includes/class-settings.php:64-72 | a given key takes its new value, every other key keeps its value, and no key is lost |
| FlfblSettings.Settings.Bootstrap | fluentcrm-facebook-leads/includes/class-settings.php:74-77 | stores `all()` |
| FlfblSettings.BootstrapIdempotent | fluentcrm-facebook-leads/includes/class-settings.php:74-77 | `all()` of the stored `all()` is `all()` again, so bootstrapping twice stores what bootstrapping once did |
| FlfblWebhook.Verify | fluentcrm-facebook-leads/includes/class-webhook-controller.php:47-55 | 200 with the challenge iff challenge and token are truthy and the token is identical to the stored one; otherwise 403 'Invalid token' |
| FlfblWebhook.EmptyStoredNeverVerifies | fluentcrm-facebook-leads/includes/class-webhook-controller.php:51 | with no verify token configured nothing verifies |
| FlfblWebhook.HandshakeVerifies | fluentcrm-facebook-leads/includes/class-webhook-controller.php:49-52 | Facebook's `hub.*` parameters reach PHP with underscores and verify against the stored token |
| FlfblWebhook.Receive | fluentcrm-facebook-leads/includes/class-webhook-controller.php:57-66 | an empty body is answered 400 'ignored' with no write; a non-array body fails; otherwise the processor's effect, answered 200 unless it threw |
| FbLeadsWebhook.Decide | includes/class-webhook-controller.php:52-58 | 200 with the challenge iff the mode is 'subscribe' and the token is identical to the stored one; otherwise 403 |
| FbLeadsWebhook.EmptyTokenAccepted | includes/class-webhook-controller.php:52 | with an empty stored token, an empty token verifies |
| FbLeadsWebhook.VerifyAsWrittenRejects | includes/class-webhook-controller.php:49-52 | reading dotted parameter names, `verify` answers 403 to every request whose parameters come in the query string, Facebook's handshake included |
| FbLeadsWebhook.HandshakeVerifies | includes/class-webhook-controller.php:47-59 | with the underscored names, Facebook's handshake verifies iff its token is the stored one |
| FbLeadsWebhook.Receive | includes/class-webhook-controller.php:61-70 | the payload is forwarded iff it is truthy; 200 then, 400 otherwise |
| Requests.MangleName | includes/class-webhook-controller.php:49-51 | a parameter name as PHP stores it holds no dot and no space |
| Requests.DottedParamAbsent | includes/class-webhook-controller.php:49-51 | no query parameter is ever found under a dotted name |
| Requests.ParamOfMangled | includes/class-webhook-controller.php:49-51 | the last raw parameter with a given name is found under that name as PHP stores it |
| Requests.HubParams | fluentcrm-facebook-leads/includes/class-webhook-controller.php:49-50 | `hub.mode`, `hub.verify_token` and `hub.challenge` are found as `hub_mode`, `hub_verify_token` and `hub_challenge` |
| LeadProcessor.FieldStep | fluentcrm-facebook-leads/includes/class-lead-processor.php:75-79 | a field is written iff its name and first value are non-empty and the name is not an array; the key is the lower-cased name; the value is `values[0]`; only an array name throws |
| LeadProcessor.EmitsMembers | fluentcrm-facebook-leads/includes/class-lead-processor.php:74-80 | the written pairs are exactly those of the fields that are written |
| LeadProcessor.NormalizedWrites | fluentcrm-facebook-leads/includes/class-lead-processor.php:71-83 | normalizing throws iff some field throws; otherwise the result is the fields' writes in order |
| LeadProcessor.NormalizeFields | fluentcrm-facebook-leads/includes/class-lead-processor.php:71-83 | the method returns the normalized fields |
| LeadProcessor.NormalizeGet | fluentcrm-facebook-leads/includes/class-lead-processor.php:71-83 | each key holds the value of its last field, and keys are distinct |
| LeadProcessor.NormalizedKeysLowerCase | fluentcrm-facebook-leads/includes/class-lead-processor.php:79 | every normalized string key is lower case |
| LeadProcessor.ZeroValueSkipped | fluentcrm-facebook-leads/includes/class-lead-processor.php:76 | a field whose first value is `"0"` is skipped, as `empty` says |
| LeadProcessor.StandardWins | fluentcrm-facebook-leads/includes/class-lead-processor.php:91-92 | a field in the field map is written under its target, and the custom map is not consulted |
| LeadProcessor.MappedKeys | fluentcrm-facebook-leads/includes/class-lead-processor.php:90-96 | every mapped key is `custom` or the target of a field present |
| LeadProcessor.MapFields | fluentcrm-facebook-leads/includes/class-lead-processor.php:85-111 | the method returns the mapped fields, a custom write into a string under `custom` included |
| LeadProcessor.CustomOffsetWrite | fluentcrm-facebook-leads/includes/class-lead-processor.php:90-96 | when `fav` maps to `custom` and `color` to custom key `"5"`, the fields fav=blue and color=red map to `custom` = "blue r", and nothing throws |
| LeadProcessor.WithSplitTwice | fluentcrm-facebook-leads/includes/class-lead-processor.php:97-104 | splitting a full name a second time changes nothing |
| LeadProcessor.SecondSplitRedundant | fluentcrm-facebook-leads/includes/class-lead-processor.php:105-109 | the second split block never changes what the first produced |
| LeadProcessor.SplitNameOfWords | fluentcrm-facebook-leads/includes/class-lead-processor.php:100-102 | a full name of words splits into the first word and the rest joined by spaces |
| LeadProcessor.FindSubscriber | fluentcrm-facebook-leads/includes/class-lead-processor.php:113-128 | the first contact with the email when there is one, else the first with the phone, else none |
| LeadProcessor.FindSubscriberNone | fluentcrm-facebook-leads/includes/class-lead-processor.php:113-128 | no contact is found iff neither a non-empty email nor a non-empty phone matches any row |
| LeadProcessor.NotAllowed | fluentcrm-facebook-leads/includes/class-lead-processor.php:133-146 | `status`, `full_name` and `custom` are not allowed |
| LeadProcessor.CopiedGet | fluentcrm-facebook-leads/includes/class-lead-processor.php:147-151 | an allowed key whose mapped value is set and not `""` is copied; every other key is untouched |
| LeadProcessor.CopyKeys | fluentcrm-facebook-leads/includes/class-lead-processor.php:147-151 | the loop copies the allowed keys |
| LeadProcessor.PreparePayload | fluentcrm-facebook-leads/includes/class-lead-processor.php:130-161 | the method returns the subscriber payload |
| LeadProcessor.PayloadGet | fluentcrm-facebook-leads/includes/class-lead-processor.php:130-161 | per key: for a new contact the status setting and the cleaned email; else the allowed non-empty mapped values; nothing else |
| LeadProcessor.FinishedGet | fluentcrm-facebook-leads/includes/class-lead-processor.php:152-160 | only a new contact gets the status and the cleaned email added |
| LeadProcessor.PayloadExcludes | fluentcrm-facebook-leads/includes/class-lead-processor.php:130-161 | the payload never holds `full_name` or `custom`, and holds no status for an existing contact |
| LeadProcessor.NonZeroInts | fluentcrm-facebook-leads/includes/class-lead-processor.php:165 | only non-zero integers survive |
| LeadProcessor.NonZeroIntsSet | fluentcrm-facebook-leads/includes/class-lead-processor.php:165-172 | the ids attached are exactly the non-zero `intval`s of the setting's items |
| LeadProcessor.MetaWrites | fluentcrm-facebook-leads/includes/class-lead-processor.php:181-193 | every meta write is for the saved contact |
| LeadProcessor.ApplyMetaAt | fluentcrm-facebook-leads/includes/class-lead-processor.php:185-193 | after the writes, each (contact, key) holds its last written value, or its old one |
| LeadProcessor.MetaWritesFrom | fluentcrm-facebook-leads/includes/class-lead-processor.php:181-193 | every meta write comes from a custom mapping whose field is set, with that field's value under the mapped key |
| LeadProcessor.SyncMeta | fluentcrm-facebook-leads/includes/class-lead-processor.php:175-195 | the method applies the meta writes and leaves the rows |
| LeadProcessor.PlanOf | fluentcrm-facebook-leads/includes/class-lead-processor.php:43-66 | a write uses the normalized fields, the contact `find_subscriber` gives, and the payload `prepare_subscriber_payload` gives |
| LeadProcessor.Attached | fluentcrm-facebook-leads/includes/class-lead-processor.php:163-173 | syncing tags and lists adds no row |
| LeadProcessor.Saved | fluentcrm-facebook-leads/includes/class-lead-processor.php:60-66 | a fill keeps the row count, a create adds one row |
| LeadProcessor.Decide | fluentcrm-facebook-leads/includes/class-lead-processor.php:45-60 | the method decides what `process_lead` does |
| LeadProcessor.Execute | fluentcrm-facebook-leads/includes/class-lead-processor.php:60-68 | the method performs the write and the syncs the decision names |
| LeadProcessor.ProcessLead | fluentcrm-facebook-leads/includes/class-lead-processor.php:43-69 | the method's outcome and new store are those of the decision on the old rows |
| LeadProcessor.SkipRules | fluentcrm-facebook-leads/includes/class-lead-processor.php:45-59 | no field data stops; a write needs fields, an email or a phone, and an email for a new contact; a stop writes nothing |
| LeadProcessor.PlanStatus | fluentcrm-facebook-leads/includes/class-lead-processor.php:152-159 | a new contact's payload carries the status setting; an existing one's carries none |
| LeadProcessor.CreatedContact | fluentcrm-facebook-leads/includes/class-lead-processor.php:64-65 | creating appends one row with the next id and the payload, earlier rows unchanged |
| LeadProcessor.UpdatedContact | fluentcrm-facebook-leads/includes/class-lead-processor.php:61-63 | only the found row changes, and the payload's keys overwrite its attributes |
| LeadProcessor.StatusAfter | fluentcrm-facebook-leads/includes/class-lead-processor.php:60-66 | a new contact gets the status setting; an existing contact keeps its status |
| LeadProcessor.SyncedContact | fluentcrm-facebook-leads/includes/class-lead-processor.php:67-68 | after the syncs the saved contact's tags and lists grow by the configured non-zero ids, and meta is synced for it |
| LeadProcessor.FetchRequest | fluentcrm-facebook-leads/includes/class-lead-processor.php:25-36 | a handshake echo, or a payload without a `leadgen_id`, fetches nothing; otherwise the lead is fetched by that id |
| LeadProcessor.HandleWebhook | fluentcrm-facebook-leads/includes/class-lead-processor.php:25-41 | the method's answer and new store are those of `Handle` and `HandleStore` |
| LeadProcessor.HandleWithoutWrite | fluentcrm-facebook-leads/includes/class-lead-processor.php:25-41 | ignored payloads, and every outcome but an update or a create, leave the store as it was |
| Admin.CleanValue | includes/class-admin.php:337-338 | an array cleans to the empty string |
| Admin.KeyValue | includes/class-admin.php:78 | the key written back as a value is never null |
| Admin.FirstTargeting | includes/class-admin.php:76-80 | the first mapping whose target is the key, or none iff no mapping targets it |
| Admin.ReverseMap | includes/class-admin.php:74-80 | the loop builds the reverse field map |
| Admin.ReversedSome | includes/class-admin.php:74-80 | building it throws iff some target is an array |
| Admin.ReversedGet | includes/class-admin.php:74-80 | a key already reversed stays; otherwise it maps back to the first field that targets it |
| Admin.ReverseFirstWins | includes/class-admin.php:74-80 | the reverse map has distinct keys, and each target maps back to the first Facebook field that names it |
| Admin.StandardRows | includes/class-admin.php:336-341 | the kept rows are exactly those of the posted pairs that clean to a non-empty field and target |
| Admin.BuildFieldMap | includes/class-admin.php:334-342 | the loop builds the field map |
| Admin.FieldMapGet | includes/class-admin.php:334-342 | each lower-cased field maps to its last posted target; keys are distinct and have no upper-case letter |
| Admin.CustomRows | includes/class-admin.php:346-351 | the kept rows are exactly those of the posted custom fields |
| Admin.BuildCustomMap | includes/class-admin.php:343-352 | the loop builds the custom field map |
| Admin.CustomMapGet | includes/class-admin.php:343-352 | each key is a lower-cased posted field whose meta key at the same index is set, mapped to that cleaned meta key; the last wins; keys are distinct |
| Admin.CustomRowSome | includes/class-admin.php:347-350 | a kept custom row is the lower-cased field and the cleaned meta key at its index |
| Admin.SaveMapping | includes/class-admin.php:329-366 | stores `all()` with the mapping update written over it |
| Admin.MappingUpdateWrites | includes/class-admin.php:356-362 | the five names take their new values; every other name keeps its value |
| Admin.SaveMappingWrites | includes/class-admin.php:334-362 | after saving: the built field and custom maps, the `intval`ed ids, `subscribed` when no status is posted; every other name unchanged |
| Admin.MappingUpdateWellFormed | includes/class-admin.php:356-362 | the mapping update is a well-formed array |
| Admin.MergePages | includes/class-admin.php:311-322 | the loops merge the fetched pages into the stored ones |
| Admin.KeyPages | includes/class-admin.php:312-315 | the first loop computes `Keyed` of the stored pages: each under its id, or nothing when a page is a string or an id is an array |
| Admin.MergeFetched | includes/class-admin.php:316-321 | the second loop computes `Merged`: each fetched page, with the flag of the page held under its id, written under that id, or nothing when PHP throws (a string page or held page, an array id, a page that takes no write) |
| Admin.KeyedWrites | includes/class-admin.php:312-315 | keying the stored pages by id writes each page under its id, the later one winning |
| Admin.MergedWrites | includes/class-admin.php:316-321 | merging writes each fetched page, refreshed, under its id |
| Admin.PageMerge | includes/class-admin.php:311-322 | stored pages keep their order with new ids after them; each fetched page is stored refreshed; pages not fetched keep their stored value |
| Admin.RefreshKeepsFlag | includes/class-admin.php:317-320 | a page already stored keeps its `subscribed` flag and takes every other field from the fetch; a new page is stored as fetched |
| Admin.FirstPage | includes/class-admin.php:376-381 | the first page with the id, or none iff no page has it |
| Admin.FindToken | includes/class-admin.php:375-381 | the loop finds the token of the first page with the id, or throws at a string page it reaches first |
| Admin.PageTokenThrows | includes/class-admin.php:376-378 | the token loop throws iff some string page comes before every page with the id |
| Admin.StringPageThrows | includes/class-admin.php:314-318 | stored pages `["abc", {id: "P", access_token: "t"}]`: subscribing "P" throws, and so does the page merge for any fetch |
| Admin.Flagged | includes/class-admin.php:383-387 | flagging keeps the page count, the keys and which pages are strings |
| Admin.FlagPages | includes/class-admin.php:383-387 | the loop sets the flag on the pages with the id, or throws when any page is a string |
| Admin.FlaggedOnly | includes/class-admin.php:383-387 | pages without the id are unchanged; pages with it get `subscribed` set to the flag and nothing else changed |
| Admin.FlagTwice | includes/class-admin.php:383-416 | flagging twice is flagging once with the later flag |
| Admin.SetSubscribed | includes/class-admin.php:368-424 | a string page reached by either loop throws and stores nothing; without a truthy single token, or when the API call fails, nothing is stored; otherwise the pages are stored with the flag set |
| Admin.RefreshPages | includes/class-admin.php:426-457 | no token, an error, or an empty fetch stores nothing; otherwise the merged pages are stored |
| Admin.TokenUpdate | includes/class-admin.php:304-307 | the token update is a well-formed array |
| Admin.ExchangeToken | includes/class-admin.php:288-327 | the tokens are stored first; with a truthy long-lived token and a non-empty fetch the merged pages are stored too |
| PhpArrays.ArrayMergeString | facebookleadsiperfexcrm/facebook-leads-fluentcrm/includes/Services/Settings.php:52 | after `array_merge`, a string key holds the later array's value, or the earlier's |
| PhpArrays.ReplaceAt | fluentcrm-facebook-leads/includes/class-settings.php:55 | after `array_replace_recursive`: distinct keys, those of the base then the new ones; each value is the replacement |
| PhpArrays.ReplaceTwice | fluentcrm-facebook-leads/includes/class-settings.php:55 | replacing again with its own result changes nothing |
| PhpArrays.Unique | facebookleadsiperfexcrm/facebook-leads-fluentcrm/includes/Services/Settings.php:99 | `array_unique` keeps the same members, without repeats, in order of first appearance |
| PhpStrings.ExplodeImplode | facebookleadsiperfexcrm/facebook-leads-fluentcrm/includes/Services/Settings.php:87 | `explode` undoes `implode` of parts without the separator |
| PhpStrings.SplitLinesImplode | facebookleadsiperfexcrm/facebook-leads-fluentcrm/includes/Services/Settings.php:104 | splitting at line breaks undoes joining lines with `\n` |
| PhpStrings.SplitFirst | facebookleadsiperfexcrm/facebook-leads-fluentcrm/includes/Services/Settings.php:112 | `explode` with limit 2 has two parts iff the separator occurs, split at its first occurrence |
| PhpStrings.SplitWsImplode | fluentcrm-facebook-leads/includes/class-lead-processor.php:100 | splitting at white space undoes joining words with a space |
| PhpStrings.IntValOfDecimal | includes/class-admin.php:353 | `intval` of an integer's decimal gives back the integer |
| PhpValues.ArrayKey | fluentcrm-facebook-leads/includes/class-lead-processor.php:79 | a string key becomes an integer key iff it is a canonical decimal in the 64-bit range |
| PhpValues.ArrayKeyInjective | fluentcrm-facebook-leads/includes/class-lead-processor.php:79 | different strings never become the same key |
| PhpValues.Lookup | facebookleadsiperfexcrm/facebook-leads-fluentcrm/includes/Services/Settings.php:45 | `??` gives the stored value unless it is missing or null, and the default then |
| PhpValues.SetIndex | fluentcrm-facebook-leads/includes/class-lead-processor.php:94 | an array key always throws; an array is written at the coerced key; null and false become a one-entry array; `true` and numbers throw; a string has one character written as `WriteOffset` says, or the write throws when the offset is not an integer or the value is empty |
| PhpValues.ReadDim | includes/class-admin.php:377-378 | a plain read of a string throws iff the name is no integer offset, and otherwise gives the character there or "" past the end; any other container reads as `isset` does |
| PhpValues.ReadName | includes/class-admin.php:384 | a plain read at a name such as `id` throws on a string and is the `isset` read on anything else |
| PhpValues.StringOffset | fluentcrm-facebook-leads/includes/class-lead-processor.php:94 | an integer offset is itself, a string offset is what `OffsetOfString` reads, an array throws, and otherwise the offset is the `(int)` cast |
| PhpValues.WriteOffset | fluentcrm-facebook-leads/includes/class-lead-processor.php:94 | an offset before the start writes nothing; otherwise the write throws iff the value's string is empty, and else only the character at the offset (from the end when negative) changes, to the value's first character, with spaces padding any gap past the end |
| PhpStrings.OffsetOfString | fluentcrm-facebook-leads/includes/class-lead-processor.php:94 | a string offset is always a 64-bit integer |
| PhpStrings.OffsetIsIntVal | fluentcrm-facebook-leads/includes/class-lead-processor.php:94 | an accepted string offset is the number `(int)` reads from the same string |
| PhpStrings.OffsetOfDecimal | fluentcrm-facebook-leads/includes/class-lead-processor.php:94 | the decimal of any 64-bit integer is accepted as that offset |
| PhpStrings.NameIsNoOffset | includes/class-admin.php:318 | a name such as `subscribed` is no string offset, so writing it into a string throws |

## Left out

- Floating-point values, and the exponent forms that `intval` and `absint` accept: numbers are integers.
- `sanitize_text_field`, `sanitize_email` and `wp_unslash` are uninterpreted functions. Where a property needs it, it assumes the cleaner is idempotent or leaves the text alone.
- Logging, the diagnostic records and the logger's storage.
- HTML output, escaping, nonces, capability checks, redirects, `exit` and settings error notices.
- `FcrmSettingsPage.FormRoundTrip`: the form is taken to post back exactly the text it displays. `esc_attr` does not double-encode an existing entity, so a stored secret holding `&amp;` is posted back as `&`, and an unchanged save of such a secret does not return the stored settings.
- Route, hook, menu and settings-section registration, and `render_page`. `save_credentials` is not part of this model.
- The Graph API client (`includes/class-facebook-client.php`) is left out. Fetching a lead or pages, exchanging a token and subscribing a page are function parameters.
- `wp_generate_password` is the `secret` parameter of `EnsureDefaults`. `class_exists` is the `available` flag. `file_exists` is a function parameter.
- `require_once` is the returned file name.
- `get_param`, `get_header` and `get_json_params` are inputs.
- FluentCRM's ORM is the `CrmStore.Store` class:
  - ids are row positions plus one;
  - `first()` is the first row in table order;
  - email and phone match by plain equality, without database collation;
  - events, timestamps and mass-assignment rules are not modelled.
- `hash_equals` compares in constant time; the model compares for equality.
- The webhook check compares a shared secret with `hash_equals`; no HMAC over the request body is computed, and the model computes none.
- `LeadProcessor.SkipRules`: a phone-only lead that matches no contact is skipped, as the code does (`class-lead-processor.php:56`). It never creates a contact.
- `PHP_EOL` is taken to be `"\n"`.
- Query-name mangling covers `.` and space. It does not model `[` or array-style parameter names.
- When a field ends up stored, the settings page's `sanitize` runs once. WordPress running the callback a second time is not modelled.
- The `includes/` plugin's own settings class (`FLFBL\Settings` of `includes/`) is not part of this model. `Admin` uses `FlfblSettings.Settings`, the model of `fluentcrm-facebook-leads/includes/class-settings.php`, in its place: `all()`, `get()` and `update()` behave as that class's do, defaults included. The contracts of `Admin.SaveMapping`, `Admin.SetSubscribed`, `Admin.RefreshPages` and `Admin.ExchangeToken` rest on that choice.
- The `includes/` plugin's lead processor is not part of this model. `FbLeadsWebhook` takes the stored verify token as a parameter, and it reports forwarding instead of modelling it.
- `Requests` models query-string parameters only. `WP_REST_Request::get_param` also reads JSON and form body parameters, where dotted names survive; those are not modelled.
- `PhpValues.Index`: `isset`, `empty` and `??` on a string find a character at a key PHP reads as an integer offset without it being a canonical integer (`" 1"`, `"01"`, `null`, a bool). `Index` receives the key already converted to an array key and reads null there.
- String-offset reads and writes treat characters as bytes. PHP's float offsets are not modelled. When a string offset is read with more than 19 digits, or has a sign and leading white space, PHP's exact overflow test is approximated by the 64-bit range.
- `Admin.CleanValue`: non-string scalars are cast to string before cleaning. That cast of floats and booleans is left uninterpreted.
- `FcrmSettings.IdsIdempotent` is stated for ids up to `PHP_INT_MAX`: beyond it `absint` saturates and rendering no longer round-trips.
- `Admin.PageMerge` requires that the fetched pages have distinct ids. With repeated ids the later page wins, and the value lemma is stated only for distinct ones.
- `FlfblSettings.Settings.Update` and `Admin.SaveMapping` require well-formed arrays (no duplicate keys): PHP arrays cannot hold duplicates, and the model's list encoding could.

## Findings

| source | as written | input that shows it | evidently intended | confidence | as-written member | corrected member |
|---|---|---|---|---|---|---|
| includes/class-webhook-controller.php:49-52 | `verify` reads `hub.mode`, `hub.verify_token` and `hub.challenge`; PHP stores query names with `.` turned into `_`, so the three are always null and the handshake always gets 403 | `GET ?hub.mode=subscribe&hub.verify_token=T&hub.challenge=C` with `T` the stored token | read `hub_mode`, `hub_verify_token` and `hub_challenge`, as the other plugin does, and answer 200 with `C` | not executed | FbLeadsWebhook.VerifyAsWrittenRejects | FbLeadsWebhook.HandshakeVerifies |
