# Laum Project core, modelled in Dafny

Laum Project is a Django site. Editors publish pages, grouped by language, and visitors file reports against those pages. Most of the code is framework configuration. This model covers the three pieces of logic in it:

- **Language-prefix rewriting** (`LangSwitch`, lang_switch.dfy). `switch_lang_code` checks a URL path and a language code. It then either replaces the language segment at the front of the path or puts `/<language>` in front. The model has the source's split/overwrite/join algorithm as a method, proved equal to a definition stated on the path itself (`Switch`). It also proves the properties of that definition: the error order, the result prefix, segment replacement, idempotence, and that two switches collapse into one.
- **Identifiers** (`Models`, models.py). `generate_gid` and `generate_pid` draw random suffixes until the existence check finds `<PREFIX>_<suffix>` free. The random generator is a parameter `draws: nat -> string`, where `draws(i)` is what its i-th call returns. The store is the set of identifiers already held. `generate_rid` is the post-save hook. It writes the report's reference ID on creation only. The report status choices, with their stored codes, are modelled too.
- **Report moderation** (`Admin`, admin.dfy). `ReportAdmin` is a class whose field `readonlyFields` is rebuilt by `GetReadonlyFields` and read by `SaveModel`. A save is the *first change* when status is still editable and the submitted status is a decision. On a first change an empty description becomes `"-"` and one e-mail goes to the reporter after the row is saved. Writes and e-mails are appended, in order, to the log of a `Backend` object. `ChangeReport` drives the two methods the way the admin's change form does. The lemma `NotifiedAtMostOnce` shows that over any series of submissions status is set once and the reporter is notified at most once.

External functions are parameters: `swap_prefix`, and `PersianEditors.run` under a given configuration of passes and `escape_return`. The settings `GID_PREFIX`, `PID_PREFIX` and `RID_PREFIX` form a `Settings` value. `settings.LANGUAGES` is a list of (code, name) pairs.

A save is a first change when two things hold (web/admin.py:156-158). First, `status` is not in the read-only list, which `get_readonly_fields` built from the stored report. Second, the *submitted* status is not pending.

## Model

| member | source | states |
|---|---|---|
| `LangSwitch.LangCodes` | laumproject/urls.py:37 | a code is in the list exactly when some configured (code, name) pair has it |
| `LangSwitch.Split` | laumproject/urls.py:46 | `path.split('/')` has at least one part and no part contains '/' |
| `LangSwitch.JoinSplit` | laumproject/urls.py:46-51 | joining the split of any string with '/' gives back the string |
| `LangSwitch.SplitJoin` | laumproject/urls.py:46-51 | splitting the join of '/'-free parts gives back the parts |
| `LangSwitch.JoinReplaceHead` | laumproject/urls.py:49-51 | overwriting `parts[0]` changes only the front of the joined string |
| `LangSwitch.ReplaceFirstSegment` | laumproject/urls.py:46-51 | overwriting `parts[1]` of a rooted path and joining gives "/<language>" followed by the path less its first segment |
| `LangSwitch.Switch` | laumproject/urls.py:36-51 | the empty path raises first, then a path not starting with '/', then an unsupported code; it succeeds exactly when all three checks pass, and the result then starts with "/<language>" |
| `LangSwitch.SwitchLangCode` | laumproject/urls.py:36-51 | the split/overwrite/join algorithm returns or raises exactly what `Switch` states, for every path, language and configuration |
| `LangSwitch.SwitchReplacesSegment` | laumproject/urls.py:46-48 | when the first segment is a configured code, the result's segments are the path's with segment 1 set to the language; the count and every other segment are unchanged |
| `LangSwitch.SwitchPrependsLanguage` | laumproject/urls.py:49-51 | when the first segment is not a configured code, the result is "/<language>" followed by the whole path |
| `LangSwitch.SwitchTwiceIsSwitchOnce` | laumproject/urls.py:46-51 | if no code contains '/', switching to a and then to b gives the same result or error as switching to b directly |
| `LangSwitch.SwitchIdempotent` | laumproject/urls.py:46-51 | if no code contains '/', switching twice to the same language equals switching once |
| `Models.Candidate` | web/models.py:17-18 | a candidate is the prefix, then '_', then the drawn suffix |
| `Models.GeneratePublicId` | web/models.py:14-31 | the retry loop returns a non-empty identifier not in the store. It is the candidate of draw k, where every earlier draw's candidate was taken |
| `Models.GenerateGid` | web/models.py:14-21 | a non-empty `<GID_PREFIX>_<suffix>` held by no stored group, built from the first draw whose candidate is free |
| `Models.GeneratePid` | web/models.py:24-31 | a non-empty `<PID_PREFIX>_<suffix>` held by no stored page, built from the first draw whose candidate is free |
| `Models.ParseStatus` | web/models.py:148-155 | exactly "pending", "accepted" and "denied" are valid status values, and each maps back to its own code |
| `Models.StatusCodeRoundTrip` | web/models.py:148-155 | every status survives the round trip through its stored code |
| `Models.Report.constructor` | web/models.py:147-172 | a new report is pending and has no reference ID yet |
| `Models.NatToString` | web/models.py:37 | `str(pk)` is a non-empty string of decimal digits, with no leading zero unless `pk` is 0 |
| `Models.NatToStringValue` | web/models.py:37 | the digits of `str(pk)` spell `pk`: reading them back as a decimal number gives `pk` |
| `Models.GenerateRid` | web/models.py:34-39 | on creation `rid` becomes `swap_prefix('<page pid>_<pk>', RID_PREFIX)` and the report is saved once more. On any other save neither `rid` nor the store changes |
| `Models.Backend.Save` | web/models.py:39 | a save appends the report's current fields to the log and sends no e-mail |
| `Models.Backend.SendEmail` | web/admin.py:173-177 | sending appends one e-mail, rendered from the report, to the log |
| `Admin.ReadonlyFieldsFor` | web/admin.py:143-148 | the six base fields always come first, in order. `description` and `status` are present exactly when a report is given and it is not pending. No field is repeated |
| `Admin.ReportAdmin.GetReadonlyFields` | web/admin.py:143-148 | the instance field is rebuilt from scratch from the given report alone, whatever it held before, and is returned |
| `Admin.SaveEffects` | web/admin.py:171-177 | the save comes first. There is exactly one e-mail when the save is a first change and none otherwise, and any e-mail goes to `[reporter]` with the saved report |
| `Admin.ReportAdmin.SaveModel` | web/admin.py:153-177 | first change holds iff `status` is not read-only and the submitted status is not pending. The description is normalised, after becoming "-" when this is a first change and the form left it empty. The body is normalised with spaces only. The log grows by the save, then by the single e-mail of a first change |
| `Admin.ReportAdmin.HasAddPermission` | web/admin.py:179-180 | adding reports through the admin is always refused |
| `Admin.GroupHasChangePermission` | web/admin.py:55-56 | changing groups through the admin is always refused |
| `Admin.NotifiesOnlyOnDecision` | web/admin.py:143-158 | a change-form submission notifies iff the stored report is pending and the submitted status is a decision. A decided report keeps its status |
| `Admin.DecidedReportIsNeverFirstChange` | web/admin.py:143-158 | after `get_readonly_fields` on a decided report, no submitted status makes the next save a first change |
| `Admin.ChangeReport` | web/admin.py:143-177 | one submission rebuilds the read-only list from the stored report. It leaves the status `StatusAfterChange` gives. The description is normalised: the submitted one while the report was pending ("-" on a decision with an empty one), the stored one otherwise. The body is normalised with spaces only. The log keeps its old entries, then gets the save, then the one e-mail to `[reporter]` exactly when `NotifiesOnChange` holds |
| `Admin.NotifiedAtMostOnce` | web/admin.py:143-177 | over any series of submissions, a decided report keeps its status, and the number of e-mails is 1 if a pending report ends decided and 0 otherwise ("This field only is set once", web/models.py:171-172) |
| `Admin.ReviewReport` | web/admin.py:143-177 | repeated submissions on one report reach the status and the e-mail count that `StatusAfter` and `NotificationsAfter` give. The old log is kept as a prefix, and every new e-mail goes to `[reporter]` |
| `Admin.AcceptThenDeny` | web/admin.py:153-177 | accepting a pending report with an empty description stores the normalised "-" and sends one e-mail. A later denial leaves it accepted and sends nothing |

## Left out

- `Models.GeneratePublicId`, `Models.GenerateGid`, `Models.GeneratePid`: these require that some draw eventually yields a free candidate. The source has no retry cap, so when every draw collides it loops forever. A terminating method cannot express that case.
- The random suffix generator `id_generator` is the parameter `draws`. The existence checks `is_gid_exist` and `is_pid_exist` are membership in the given set of stored identifiers. The race between the check and the insert is concurrency and is not modelled.
- `swap_prefix` (web/helpers) is a function parameter, so nothing is proved about the shape of a reference ID beyond its inputs. `get_active_language` is not part of this model.
- `PersianEditors` (web/persian_editors) is a function parameter over the editor configuration and the text. Its passes, and the default of `escape_return`, are not modelled.
- The texts of the three exceptions `switch_lang_code` raises (laumproject/urls.py:40,42,44) are not modelled. The three `SwitchError` constructors tell the errors apart, and no property depends on the texts.
- The translation of the placeholder `_('-')` is taken as the literal "-".
- `form.cleaned_data['description']` is a plain string argument. The source reads it only on a first change. In the model `description` and `status` are always read-only together, so it is then always present.
- E-mail template rendering, the request object and transport failures of `BaseEmailMessage.send`. Sending is one entry in the log.
- `ReportAdmin` keeps `readonly_fields` on a shared admin instance. Two requests interleaving between `get_readonly_fields` and `save_model`, or two simultaneous decisions on one report, are concurrency and are not modelled.
- The status is a three-valued datatype. A stored value outside the choices appears only through `ParseStatus`.
- `PageAdmin.save_model`, the Jalali date helpers and Persian digits (`jalali_updated_on`, `jalali_created_on`), and the HTML builders (`links`, `image_tag`, `view_page`, `send_email`). Also left out: fieldsets, list and search declarations, `get_queryset`, `urlpatterns` and the error handlers, `UserAdmin` and `User`. These are presentation or framework glue.
- ORM behaviour: field lengths, `unique`/`unique_together`, cascades and automatic timestamps. Report fields other than those the core reads or writes are also omitted, and the page relation is reduced to the page's `pid`.
