/**
 * The report moderation logic of web/admin.py: `ReportAdmin` decides which
 * fields are read-only, and on save treats the first decision on a report
 * (pending to accepted or denied) specially, filling an empty description and
 * e-mailing the reporter once. The Persian text normaliser is a parameter.
 */
module Admin {
  import opened Wrappers
  import opened Models

  /** The fields that are always read-only on the report change form. */
  const BaseReadonlyFields: seq<string> :=
    ["view_page", "body", "rid", "send_email", "jalali_updated_on", "jalali_created_on"]

  /** The fields that become read-only once a report has been decided. */
  const DecisionFields: seq<string> := ["description", "status"]

  /** No element occurs twice. */
  predicate NoDuplicates(s: seq<string>)
  {
    forall i, j :: 0 <= i < j < |s| ==> s[i] != s[j]
  }

  /**
   * The read-only fields for a change form on a report whose stored status is
   * `stored` (`None`: no object, as on the add form).
   */
  function ReadonlyFieldsFor(stored: Option<Status>): (fields: seq<string>)
    ensures |fields| >= |BaseReadonlyFields| && fields[..|BaseReadonlyFields|] == BaseReadonlyFields
    ensures "description" in fields <==> stored.Some? && stored.value != Pending
    ensures "status" in fields <==> stored.Some? && stored.value != Pending
    ensures NoDuplicates(fields)
  {
    if stored.Some? && stored.value != Pending then BaseReadonlyFields + DecisionFields
    else BaseReadonlyFields
  }

  /** A save is the first change when status is still editable and the submitted status is a decision. */
  predicate IsFirstChange(readonlyFields: seq<string>, submitted: Status)
  {
    "status" !in readonlyFields && submitted != Pending
  }

  /** The configuration of a `PersianEditors` instance: the active passes and `escape_return` (`None`: left at the library's default). */
  datatype EditorConfig = EditorConfig(passes: seq<string>, escapeReturn: Option<bool>)

  /** `PersianEditors.run` under a configuration; the normaliser itself lives outside the model. */
  type Normalizer = (EditorConfig, string) -> string

  /** The editor `save_model` builds for the description. */
  const DescriptionEditor := EditorConfig(["space", "number", "arabic", "punctuation_marks"], None)

  /** The same editor after `set_editors(['space'])` and `escape_return = False`, used for the body. */
  const BodyEditor := EditorConfig(["space"], Some(false))

  /** The effects of one `save_model`: the row is written, then on a first change one e-mail goes to the reporter. */
  function SaveEffects(first: bool, saved: ReportRecord): (effects: seq<Effect>)
    ensures |effects| >= 1 && effects[0] == Saved(saved)
    ensures Notifications(effects) == if first then 1 else 0
    ensures forall k :: 0 <= k < |effects| && effects[k].Emailed? ==>
              k > 0 && effects[k] == Emailed([saved.reporter], saved)
    ensures MailedOnlyTo(effects, 0, saved.reporter)
  {
    var mail: seq<Effect> := if first then [Emailed([saved.reporter], saved)] else [];
    var effects := [Saved(saved)] + mail;
    assert effects[1..] == mail;
    assert first ==> mail[1..] == [];
    assert Notifications(mail) == if first then 1 else 0;
    assert Notifications(effects) == Notifications(mail);
    effects
  }

  class ReportAdmin {
    /** `self.readonly_fields`; `ModelAdmin` starts it empty. */
    var readonlyFields: seq<string>

    constructor ()
      ensures readonlyFields == []
    {
      readonlyFields := [];
    }

    /**
     * `get_readonly_fields`: rebuilds `readonlyFields` from scratch, adding
     * description and status when the given report is no longer pending.
     */
    method GetReadonlyFields(obj: Report?) returns (fields: seq<string>)
      modifies this
      ensures fields == ReadonlyFieldsFor(if obj == null then None else Some(obj.status))
      ensures readonlyFields == fields
    {
      readonlyFields := BaseReadonlyFields;
      if obj != null && obj.status != Pending {
        readonlyFields := readonlyFields + DecisionFields;
      }
      fields := readonlyFields;
    }

    /**
     * `save_model`: `formDescription` is the description the form submitted
     * (`form.cleaned_data['description']`). The description is normalised, after
     * being replaced by "-" when this is the first change and the form left it
     * empty; the body is normalised with spaces only; the row is saved; then
     * on a first change the reporter gets one e-mail with the saved report.
     */
    method SaveModel(obj: Report, formDescription: string, run: Normalizer, backend: Backend)
      modifies obj`description, obj`body, backend`log
      ensures obj.description ==
                run(DescriptionEditor,
                    if IsFirstChange(readonlyFields, obj.status) && formDescription == "" then "-"
                    else old(obj.description))
      ensures obj.body == run(BodyEditor, old(obj.body))
      ensures backend.log == old(backend.log) + SaveEffects(IsFirstChange(readonlyFields, obj.status), obj.Record())
      ensures Notifications(backend.log) ==
                old(Notifications(backend.log)) + (if IsFirstChange(readonlyFields, obj.status) then 1 else 0)
    {
      var isFirstChange := false;
      if "status" !in readonlyFields && obj.status != Pending {
        isFirstChange := true;
      }

      if isFirstChange && formDescription == "" {
        obj.description := "-";
      }

      var editor := DescriptionEditor;
      obj.description := run(editor, obj.description);

      editor := editor.(passes := ["space"]);
      editor := editor.(escapeReturn := Some(false));
      obj.body := run(editor, obj.body);

      ghost var before := backend.log;
      backend.Save(obj);
      if isFirstChange {
        backend.SendEmail([obj.reporter], obj);
      }
      assert backend.log == before + SaveEffects(isFirstChange, obj.Record());
      NotificationsAppend(before, SaveEffects(isFirstChange, obj.Record()));
    }

    /** `has_add_permission`: reports are never added through the admin. */
    function HasAddPermission(): (allowed: bool)
      ensures !allowed
    {
      false
    }
  }

  /** `GroupAdmin.has_change_permission`: groups are never changed through the admin. */
  function GroupHasChangePermission(): (allowed: bool)
    ensures !allowed
  {
    false
  }

  // ---------------------------------------------------------------------------
  // The change form, as Django's admin drives the two methods above
  // ---------------------------------------------------------------------------

  /** The status a submission leaves: the submitted one while status is editable, the stored one once it is read-only. */
  function StatusAfterChange(stored: Status, submitted: Status): (after: Status)
  {
    if "status" in ReadonlyFieldsFor(Some(stored)) then stored else submitted
  }

  /** A submission on a report in status `stored` is a first change. */
  predicate NotifiesOnChange(stored: Status, submitted: Status)
  {
    IsFirstChange(ReadonlyFieldsFor(Some(stored)), StatusAfterChange(stored, submitted))
  }

  /** A submission notifies exactly when it takes a pending report to a decision; a decided report keeps its status. */
  lemma NotifiesOnlyOnDecision(stored: Status, submitted: Status)
    ensures NotifiesOnChange(stored, submitted) <==> stored == Pending && submitted != Pending
    ensures stored != Pending ==> StatusAfterChange(stored, submitted) == stored
    ensures stored == Pending ==> StatusAfterChange(stored, submitted) == submitted
  {
  }

  /** `get_readonly_fields` called on a decided report rules out a first change on the following save, whatever is submitted. */
  lemma DecidedReportIsNeverFirstChange(stored: Status, submitted: Status)
    requires stored != Pending
    ensures !IsFirstChange(ReadonlyFieldsFor(Some(stored)), submitted)
  {
  }

  /**
   * One submission of the change form for `obj`: the admin computes the
   * read-only fields from the stored report, the form writes the fields that
   * are still editable, then `save_model` runs.
   */
  method ChangeReport(admin: ReportAdmin, obj: Report, submittedStatus: Status, submittedDescription: string,
                      run: Normalizer, backend: Backend)
    modifies admin, obj`status, obj`description, obj`body, backend`log
    ensures obj.status == StatusAfterChange(old(obj.status), submittedStatus)
    ensures Notifications(backend.log) ==
              old(Notifications(backend.log)) + (if NotifiesOnChange(old(obj.status), submittedStatus) then 1 else 0)
    ensures admin.readonlyFields == ReadonlyFieldsFor(Some(old(obj.status)))
    ensures obj.description ==
              run(DescriptionEditor,
                  if NotifiesOnChange(old(obj.status), submittedStatus) && submittedDescription == "" then "-"
                  else if old(obj.status) == Pending then submittedDescription
                  else old(obj.description))
    ensures obj.body == run(BodyEditor, old(obj.body))
    ensures backend.log == old(backend.log) + SaveEffects(NotifiesOnChange(old(obj.status), submittedStatus), obj.Record())
  {
    var fields := admin.GetReadonlyFields(obj);
    var formDescription := obj.description;
    if "status" !in fields {
      obj.status := submittedStatus;
    }
    if "description" !in fields {
      obj.description := submittedDescription;
      formDescription := submittedDescription;
    }
    admin.SaveModel(obj, formDescription, run, backend);
  }

  /** The status after a series of submissions. */
  function StatusAfter(stored: Status, submissions: seq<Status>): (final: Status)
    decreases submissions
  {
    if submissions == [] then stored
    else StatusAfter(StatusAfterChange(stored, submissions[0]), submissions[1..])
  }

  /** The e-mails a series of submissions sends. */
  function NotificationsAfter(stored: Status, submissions: seq<Status>): (count: nat)
    decreases submissions
  {
    if submissions == [] then 0
    else (if NotifiesOnChange(stored, submissions[0]) then 1 else 0)
         + NotificationsAfter(StatusAfterChange(stored, submissions[0]), submissions[1..])
  }

  /**
   * Status is set once and the reporter is notified once: over any series of
   * submissions a decided report keeps its status, and the e-mails sent number
   * one when a pending report ends decided and zero otherwise.
   */
  lemma {:induction false} NotifiedAtMostOnce(stored: Status, submissions: seq<Status>)
    ensures stored != Pending ==> StatusAfter(stored, submissions) == stored
    ensures NotificationsAfter(stored, submissions) ==
              if stored == Pending && StatusAfter(stored, submissions) != Pending then 1 else 0
    decreases submissions
  {
    if submissions != [] {
      NotifiesOnlyOnDecision(stored, submissions[0]);
      NotifiedAtMostOnce(StatusAfterChange(stored, submissions[0]), submissions[1..]);
    }
  }

  /** A series of submissions is its first one followed by the rest. */
  lemma HistoryStep(stored: Status, first: Status, rest: seq<Status>)
    ensures StatusAfter(stored, [first] + rest) == StatusAfter(StatusAfterChange(stored, first), rest)
    ensures NotificationsAfter(stored, [first] + rest) ==
              (if NotifiesOnChange(stored, first) then 1 else 0) + NotificationsAfter(StatusAfterChange(stored, first), rest)
  {
    assert ([first] + rest)[1..] == rest;
  }

  /** `log` starts with `prefix`. */
  predicate Extends(log: seq<Effect>, prefix: seq<Effect>)
  {
    |log| >= |prefix| && log[..|prefix|] == prefix
  }

  /** Every e-mail in `log` from index `from` on goes to `[reporter]` only. */
  predicate MailedOnlyTo(log: seq<Effect>, from: nat, reporter: string)
  {
    forall k :: from <= k < |log| && log[k].Emailed? ==> log[k].recipients == [reporter]
  }

  /** Appending effects whose e-mails all go to `reporter` keeps a log's prefix and keeps every e-mail after it addressed to `reporter`. */
  lemma ExtendMailLog(prefix: seq<Effect>, log: seq<Effect>, effects: seq<Effect>, reporter: string)
    requires Extends(log, prefix) && MailedOnlyTo(log, |prefix|, reporter)
    requires MailedOnlyTo(effects, 0, reporter)
    ensures Extends(log + effects, prefix) && MailedOnlyTo(log + effects, |prefix|, reporter)
  {
    assert (log + effects)[..|prefix|] == log[..|prefix|];
    forall k | |prefix| <= k < |log + effects| && (log + effects)[k].Emailed?
      ensures (log + effects)[k].recipients == [reporter]
    {
      if k >= |log| {
        assert (log + effects)[k] == effects[k - |log|];
      }
    }
  }

  /** Several submissions of the change form for the same report, one after the other. */
  method ReviewReport(admin: ReportAdmin, obj: Report, submissions: seq<(Status, string)>,
                      run: Normalizer, backend: Backend)
    modifies admin, obj`status, obj`description, obj`body, backend`log
    ensures obj.status == StatusAfter(old(obj.status), StatusesOf(submissions))
    ensures Notifications(backend.log) ==
              old(Notifications(backend.log)) + NotificationsAfter(old(obj.status), StatusesOf(submissions))
    ensures Extends(backend.log, old(backend.log))
    ensures MailedOnlyTo(backend.log, |old(backend.log)|, obj.reporter)
  {
    var i := 0;
    while i < |submissions|
      invariant 0 <= i <= |submissions|
      invariant StatusAfter(old(obj.status), StatusesOf(submissions)) ==
                  StatusAfter(obj.status, StatusesOf(submissions[i..]))
      invariant old(Notifications(backend.log)) + NotificationsAfter(old(obj.status), StatusesOf(submissions)) ==
                  Notifications(backend.log) + NotificationsAfter(obj.status, StatusesOf(submissions[i..]))
      invariant Extends(backend.log, old(backend.log))
      invariant MailedOnlyTo(backend.log, |old(backend.log)|, obj.reporter)
    {
      assert StatusesOf(submissions[i..]) == [submissions[i].0] + StatusesOf(submissions[i + 1..]);
      ghost var before, stored := backend.log, obj.status;
      HistoryStep(stored, submissions[i].0, StatusesOf(submissions[i + 1..]));
      ChangeReport(admin, obj, submissions[i].0, submissions[i].1, run, backend);
      ExtendMailLog(old(backend.log), before, SaveEffects(NotifiesOnChange(stored, submissions[i].0), obj.Record()), obj.reporter);
      i := i + 1;
    }
  }

  /** The statuses of a series of submissions. */
  function StatusesOf(submissions: seq<(Status, string)>): (statuses: seq<Status>)
    ensures |statuses| == |submissions|
    ensures forall k :: 0 <= k < |submissions| ==> statuses[k] == submissions[k].0
  {
    seq(|submissions|, k requires 0 <= k < |submissions| => submissions[k].0)
  }

  /**
   * A pending report with an empty description is accepted with the
   * description left empty, then a denial is submitted. Right after the
   * acceptance the stored description is the normalised "-" (the value
   * returned here; the denial's save normalises it once more). One e-mail is
   * sent in all, and the report stays accepted.
   */
  method AcceptThenDeny(run: Normalizer) returns (description: string, status: Status, notifications: nat)
    ensures description == run(DescriptionEditor, "-")
    ensures status == Accepted
    ensures notifications == 1
  {
    var admin := new ReportAdmin();
    var backend := new Backend();
    var report := new Report("PID_example", 1, "body", "reporter@example.com", "");
    NotifiesOnlyOnDecision(Pending, Accepted);
    ChangeReport(admin, report, Accepted, "", run, backend);
    description := report.description;
    NotifiesOnlyOnDecision(Accepted, Denied);
    ChangeReport(admin, report, Denied, "", run, backend);
    status := report.status;
    notifications := Notifications(backend.log);
  }
}
