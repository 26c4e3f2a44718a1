/**
 * The entities and the identifier logic of web/models.py: public IDs for groups
 * and pages drawn at random until one is free, the report reference ID written
 * by a post-create hook, and the report status choices. `Backend` records the
 * writes to the database and the e-mails sent, in order.
 */
module Models {
  import opened Wrappers

  /** The settings the core reads; their values live outside the model. */
  datatype Settings = Settings(gidPrefix: string, pidPrefix: string, ridPrefix: string)

  // ---------------------------------------------------------------------------
  // Public identifiers: generate_gid / generate_pid
  // ---------------------------------------------------------------------------

  /** The candidate built from one draw of the random generator: `<prefix>_<suffix>`. */
  function Candidate(prefix: string, suffix: string): (id: string)
    ensures |id| > |prefix| && id[..|prefix| + 1] == prefix + "_"
  {
    prefix + "_" + suffix
  }

  /** Python truthiness of the loop variable: `None` and the empty string are false. */
  predicate Truthy(id: Option<string>)
  {
    id.Some? && id.value != ""
  }

  /** The first `n` draws all produced a candidate that is already taken. */
  ghost predicate AllTaken(prefix: string, existing: set<string>, draws: nat -> string, n: nat)
  {
    forall j: nat :: j < n ==> Candidate(prefix, draws(j)) in existing
  }

  /**
   * The retry loop shared by `generate_gid` and `generate_pid`. `draws(i)` is
   * what the random generator returns on its i-th call; `existing` holds the
   * identifiers already stored, which the existence check consults. The result
   * is the candidate of the first draw that is free.
   */
  method GeneratePublicId(prefix: string, existing: set<string>, draws: nat -> string) returns (id: string)
    requires exists k: nat :: Candidate(prefix, draws(k)) !in existing
    ensures id != "" && id !in existing
    ensures |id| > |prefix| && id[..|prefix| + 1] == prefix + "_"
    ensures exists k: nat :: id == Candidate(prefix, draws(k)) && AllTaken(prefix, existing, draws, k)
  {
    ghost var bound: nat :| Candidate(prefix, draws(bound)) !in existing;
    var newId: Option<string> := None;
    var attempt: nat := 0;
    while !Truthy(newId)
      invariant attempt <= bound + 1
      invariant newId.None? ==> attempt <= bound && AllTaken(prefix, existing, draws, attempt)
      invariant newId.Some? ==> attempt >= 1 && newId.value == Candidate(prefix, draws(attempt - 1))
                                && newId.value !in existing && AllTaken(prefix, existing, draws, attempt - 1)
      decreases bound + 1 - attempt
    {
      var suffix := draws(attempt);
      attempt := attempt + 1;
      newId := Some(Candidate(prefix, suffix));
      if newId.value in existing {
        newId := None;
      }
    }
    id := newId.value;
  }

  /** `generate_gid`: a fresh group ID, `<GID_PREFIX>_<suffix>`, not held by any stored group. */
  method GenerateGid(settings: Settings, groupGids: set<string>, draws: nat -> string) returns (gid: string)
    requires exists k: nat :: Candidate(settings.gidPrefix, draws(k)) !in groupGids
    ensures gid != "" && gid !in groupGids
    ensures exists k: nat :: gid == Candidate(settings.gidPrefix, draws(k))
                             && AllTaken(settings.gidPrefix, groupGids, draws, k)
  {
    gid := GeneratePublicId(settings.gidPrefix, groupGids, draws);
  }

  /** `generate_pid`: a fresh page ID, `<PID_PREFIX>_<suffix>`, not held by any stored page. */
  method GeneratePid(settings: Settings, pagePids: set<string>, draws: nat -> string) returns (pid: string)
    requires exists k: nat :: Candidate(settings.pidPrefix, draws(k)) !in pagePids
    ensures pid != "" && pid !in pagePids
    ensures exists k: nat :: pid == Candidate(settings.pidPrefix, draws(k))
                             && AllTaken(settings.pidPrefix, pagePids, draws, k)
  {
    pid := GeneratePublicId(settings.pidPrefix, pagePids, draws);
  }

  // ---------------------------------------------------------------------------
  // Reports
  // ---------------------------------------------------------------------------

  /** The `Report.status` choices. */
  datatype Status = Pending | Accepted | Denied

  /** The stored value of each choice (`STATUS_IS_PENDING`, `STATUS_IS_ACCEPTED`, `STATUS_IS_DENIED`). */
  function StatusCode(s: Status): (code: string)
  {
    match s
    case Pending => "pending"
    case Accepted => "accepted"
    case Denied => "denied"
  }

  /** The choice a stored value stands for; `None` for a value outside `STATUS_CHOICES`. */
  function ParseStatus(code: string): (s: Option<Status>)
    ensures s.Some? <==> code == "pending" || code == "accepted" || code == "denied"
    ensures s.Some? ==> StatusCode(s.value) == code
  {
    if code == "pending" then Some(Pending)
    else if code == "accepted" then Some(Accepted)
    else if code == "denied" then Some(Denied)
    else None
  }

  /** Every status survives a round trip through its stored value. */
  lemma StatusCodeRoundTrip(s: Status)
    ensures ParseStatus(StatusCode(s)) == Some(s)
  {
  }

  /** A report as it is written to the database or rendered into an e-mail. */
  datatype ReportRecord = ReportRecord(
    pagePid: string, pk: nat, rid: Option<string>,
    body: string, reporter: string, description: string, status: Status)

  /** A report instance, whose fields the admin and the post-create hook update in place. */
  class Report {
    const pagePid: string
    const pk: nat
    var rid: Option<string>
    var body: string
    var reporter: string
    var description: string
    var status: Status

    /** A report as a visitor submits it: status defaults to pending, and `rid` is empty until the hook runs. */
    constructor (pagePid: string, pk: nat, body: string, reporter: string, description: string)
      ensures this.pagePid == pagePid && this.pk == pk
      ensures this.body == body && this.reporter == reporter && this.description == description
      ensures status == Pending && rid == None
    {
      this.pagePid := pagePid;
      this.pk := pk;
      this.body := body;
      this.reporter := reporter;
      this.description := description;
      status := Pending;
      rid := None;
    }

    function Record(): (rec: ReportRecord)
      reads this
    {
      ReportRecord(pagePid, pk, rid, body, reporter, description, status)
    }
  }

  /** One observable effect: a row written, or an e-mail sent to some recipients with a report as its context. */
  datatype Effect = Saved(report: ReportRecord) | Emailed(recipients: seq<string>, report: ReportRecord)

  /** The number of e-mails in a log of effects. */
  function Notifications(log: seq<Effect>): (count: nat)
  {
    if log == [] then 0
    else (if log[0].Emailed? then 1 else 0) + Notifications(log[1..])
  }

  /** Counting e-mails distributes over concatenation of logs. */
  lemma {:induction false} NotificationsAppend(a: seq<Effect>, b: seq<Effect>)
    ensures Notifications(a + b) == Notifications(a) + Notifications(b)
  {
    if a != [] {
      assert (a + b)[1..] == a[1..] + b;
      NotificationsAppend(a[1..], b);
    } else {
      assert a + b == b;
    }
  }

  /** The database and the mail transport, seen as the log of what was written and sent. */
  class Backend {
    var log: seq<Effect>

    constructor ()
      ensures log == []
    {
      log := [];
    }

    /** `instance.save()`: writes the report's current fields. */
    method Save(r: Report)
      modifies this`log
      ensures log == old(log) + [Saved(r.Record())]
      ensures Notifications(log) == old(Notifications(log))
    {
      NotificationsAppend(log, [Saved(r.Record())]);
      log := log + [Saved(r.Record())];
    }

    /** `message.send(recipients)`: one e-mail rendered from the report. */
    method SendEmail(recipients: seq<string>, r: Report)
      modifies this`log
      ensures log == old(log) + [Emailed(recipients, r.Record())]
      ensures Notifications(log) == old(Notifications(log)) + 1
    {
      NotificationsAppend(log, [Emailed(recipients, r.Record())]);
      log := log + [Emailed(recipients, r.Record())];
    }
  }

  /** `str(n)` for a non-negative integer: its decimal digits. */
  function NatToString(n: nat): (s: string)
    ensures |s| > 0
    ensures forall i :: 0 <= i < |s| ==> '0' <= s[i] <= '9'
    ensures n > 0 ==> s[0] != '0'
  {
    if n < 10 then [(48 + n) as char]
    else NatToString(n / 10) + [(48 + n % 10) as char]
  }

  /** The number a string of decimal digits spells, most significant digit first. */
  function DigitsValue(s: string): (value: int)
  {
    if s == [] then 0 else DigitsValue(s[..|s| - 1]) * 10 + (s[|s| - 1] as int - 48)
  }

  /** The digits `str(n)` produces spell `n`. */
  lemma {:induction false} NatToStringValue(n: nat)
    ensures DigitsValue(NatToString(n)) == n
  {
    var s := NatToString(n);
    if n >= 10 {
      NatToStringValue(n / 10);
      assert s[..|s| - 1] == NatToString(n / 10);
    } else {
      assert s[..|s| - 1] == [];
    }
  }

  /** The reference ID of a report: `swap_prefix('<page pid>_<pk>', RID_PREFIX)`, with `swap_prefix` a parameter. */
  function DerivedRid(pagePid: string, pk: nat, ridPrefix: string, swapPrefix: (string, string) -> string): (rid: string)
  {
    swapPrefix(pagePid + "_" + NatToString(pk), ridPrefix)
  }

  /**
   * `generate_rid`, the post-save hook. On the save that created the row it
   * sets `rid` and saves again; that second save runs the hook with
   * `created` false, which changes nothing. On every later save `rid` and the
   * database stay as they are.
   */
  method GenerateRid(instance: Report, created: bool, settings: Settings,
                     swapPrefix: (string, string) -> string, backend: Backend)
    modifies instance`rid, backend`log
    ensures created ==> instance.rid == Some(DerivedRid(instance.pagePid, instance.pk, settings.ridPrefix, swapPrefix))
    ensures created ==> backend.log == old(backend.log) + [Saved(instance.Record())]
    ensures !created ==> instance.rid == old(instance.rid) && backend.log == old(backend.log)
  {
    if created {
      instance.rid := Some(swapPrefix(instance.pagePid + "_" + NatToString(instance.pk), settings.ridPrefix));
      backend.Save(instance);
    }
  }
}
