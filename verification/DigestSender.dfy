/**
 One run of scripts/send_email_digests.py: eligibility, the hour check, the reservation and the three
 outcomes of the mailer, against a log that other runs may be writing at the same time.
 */
module DigestSender {
  import opened Wrappers
  import opened Calendar
  import opened DigestRuns

  type Log = map<Key, Option<string>>

  // Dry run, and whether every email goes to one overriding address.
  datatype Settings = Settings(sendHour: int, override: bool, dryRun: bool)

  // One channel and kind as the run finds it: the opt-in flag, the address, the local hour, whether the
  // digest is empty, how the provider will answer, and the rows other runs commit after the check.
  datatype Visit = Visit(
    post: Post, optedIn: bool, email: Option<string>, hour: int, empty: bool, http: HttpResult, others: Log)

  datatype Slot = Slot(channel: ChannelId, kind: Period)

  datatype Status =
    | NotDueYet
    | AlreadySent
    | DryEmpty
    | WouldSend
    | NoLives
    | NoRecipient
    | NotRetried
    | Failed
    | SentAs(id: string)

  predicate Eligible(v: Visit, cfg: Settings) {
    v.optedIn && (cfg.override || v.email.Some?)
  }

  predicate HasRecipient(v: Visit, cfg: Settings) {
    cfg.override || (v.email.Some? && v.email.value != "")
  }

  function StatusOf(o: Outcome): Status {
    match o
    case Accepted(id) => SentAs(id)
    case NotSent => Failed
    case Uncertain => NotRetried
  }

  // Does the visit post an email, given the log at the time of the insert?
  predicate Posts(log: Log, v: Visit, cfg: Settings) {
    !v.empty && KeyOf(v.post) !in log && HasRecipient(v, cfg)
  }

  function LogAfter(log: Log, v: Visit, cfg: Settings): Log {
    if Posts(log, v, cfg) && !SendEmail(v.http).NotSent? then log[KeyOf(v.post) := LoggedId(SendEmail(v.http))]
    else log
  }

  function StatusAfter(log: Log, v: Visit, cfg: Settings): Status {
    if v.empty then NoLives
    else if KeyOf(v.post) in log then AlreadySent
    else if !HasRecipient(v, cfg) then NoRecipient
    else StatusOf(SendEmail(v.http))
  }

  // The log as the insert sees it: rows are never removed.
  function Interleaved(log: Log, others: Log): Log {
    others + log
  }

  predicate Tried(log: Log, v: Visit, cfg: Settings) {
    Eligible(v, cfg) && v.hour >= cfg.sendHour && KeyOf(v.post) !in log && !cfg.dryRun
  }

  function VisitLog(log: Log, v: Visit, cfg: Settings): Log {
    if Tried(log, v, cfg) then LogAfter(Interleaved(log, v.others), v, cfg) else log
  }

  function VisitStatus(log: Log, v: Visit, cfg: Settings): Status {
    if v.hour < cfg.sendHour then NotDueYet
    else if KeyOf(v.post) in log then AlreadySent
    else if cfg.dryRun then (if v.empty then DryEmpty else WouldSend)
    else StatusAfter(Interleaved(log, v.others), v, cfg)
  }

  // The log and the summary after the first visits.
  function RunLog(log: Log, visits: seq<Visit>, cfg: Settings): Log
    decreases |visits|
  {
    if visits == [] then log
    else VisitLog(RunLog(log, visits[..|visits| - 1], cfg), visits[|visits| - 1], cfg)
  }

  function RunResults(log: Log, visits: seq<Visit>, cfg: Settings): map<Slot, Status>
    decreases |visits|
  {
    if visits == [] then map[]
    else
      var v := visits[|visits| - 1];
      var before := RunResults(log, visits[..|visits| - 1], cfg);
      if !Eligible(v, cfg) then before
      else
        before[Slot(v.post.channel, v.post.kind) := VisitStatus(RunLog(log, visits[..|visits| - 1], cfg), v, cfg)]
  }

  class Sender {
    // Committed rows, and the row of this session's open transaction.
    var log: Log
    var reserved: Option<Key>

    constructor (rows: Log)
      ensures log == rows && reserved == None
    {
      log, reserved := rows, None;
    }

    method Rollback()
      modifies this`reserved
      ensures reserved == None
    {
      reserved := None;
    }

    method Commit(id: Option<string>)
      requires reserved.Some?
      modifies this
      ensures log == old(log)[old(reserved).value := id] && reserved == None
    {
      log := log[reserved.value := id];
      reserved := None;
    }

    method Reserve(k: Key) returns (ok: bool)
      requires reserved.None?
      modifies this`reserved
      ensures ok <==> k !in log
      ensures reserved == if ok then Some(k) else None
    {
      reserved := Some(k);
      if k in log {
        Rollback();
        return false;
      }
      ok := true;
    }

    method SendOne(v: Visit, cfg: Settings) returns (status: Status)
      requires reserved.None?
      modifies this
      ensures reserved.None?
      ensures log == LogAfter(old(log), v, cfg)
      ensures status == StatusAfter(old(log), v, cfg)
    {
      if v.empty { return NoLives; }
      var ok := Reserve(KeyOf(v.post));
      if !ok { return AlreadySent; }
      if !cfg.override && (v.email.None? || v.email.value == "") {
        Rollback();
        return NoRecipient;
      }
      match SendEmail(v.http) {
        case Uncertain =>
          Commit(None);
          status := NotRetried;
        case NotSent =>
          Rollback();
          status := Failed;
        case Accepted(id) =>
          Commit(Some(id));
          status := SentAs(id);
      }
    }

    method Run(visits: seq<Visit>, cfg: Settings) returns (results: map<Slot, Status>)
      requires reserved.None?
      modifies this
      ensures reserved.None?
      ensures log == RunLog(old(log), visits, cfg)
      ensures results == RunResults(old(log), visits, cfg)
    {
      results := map[];
      for i := 0 to |visits|
        invariant reserved.None?
        invariant log == RunLog(old(log), visits[..i], cfg)
        invariant results == RunResults(old(log), visits[..i], cfg)
      {
        var v := visits[i];
        assert visits[..i + 1][..i] == visits[..i];
        if !v.optedIn || (!cfg.override && v.email.None?) { continue; }
        var slot := Slot(v.post.channel, v.post.kind);
        if v.hour < cfg.sendHour {
          results := results[slot := NotDueYet];
          continue;
        }
        if KeyOf(v.post) in log {
          results := results[slot := AlreadySent];
          continue;
        }
        if cfg.dryRun {
          results := results[slot := if v.empty then DryEmpty else WouldSend];
          continue;
        }
        log := v.others + log;
        var status := SendOne(v, cfg);
        results := results[slot := status];
      }
      assert visits[..|visits|] == visits;
    }
  }

  // ----- what a run guarantees ---------------------------------------------------------

  /** A run never changes or removes a row, and a row of its own is in the log exactly for the emails that
      were accepted or may have been. */
  lemma {:induction false} RunKeepsRows(log: Log, visits: seq<Visit>, cfg: Settings, k: Key)
    requires k in log
    ensures k in RunLog(log, visits, cfg) && RunLog(log, visits, cfg)[k] == log[k]
    decreases |visits|
  {
    if visits != [] { RunKeepsRows(log, visits[..|visits| - 1], cfg, k); }
  }

  // Why a run may have written a row: someone opted in, with an address, at or after the hour, on a real run,
  // with something to report, and the provider did not refuse.
  predicate Explains(v: Visit, cfg: Settings, k: Key) {
    && KeyOf(v.post) == k && v.optedIn && (cfg.override || (v.email.Some? && v.email.value != ""))
    && v.hour >= cfg.sendHour && !cfg.dryRun && !v.empty && !SendEmail(v.http).NotSent?
  }

  predicate ByOthers(visits: seq<Visit>, k: Key) {
    exists i :: 0 <= i < |visits| && k in visits[i].others
  }

  /** Every row a run adds is explained by one of its visits, or was committed by another run meanwhile. */
  lemma {:induction false} NewRowsAreExplained(log: Log, visits: seq<Visit>, cfg: Settings, k: Key)
    requires k in RunLog(log, visits, cfg) && k !in log && !ByOthers(visits, k)
    ensures exists i :: 0 <= i < |visits| && Explains(visits[i], cfg, k)
    decreases |visits|
  {
    var front, n := visits[..|visits| - 1], |visits| - 1;
    if k in RunLog(log, front, cfg) {
      assert forall i :: 0 <= i < |front| ==> front[i] == visits[i];
      NewRowsAreExplained(log, front, cfg, k);
      var i :| 0 <= i < |front| && Explains(front[i], cfg, k);
      assert Explains(visits[i], cfg, k);
    } else {
      assert k !in visits[n].others;
      assert Explains(visits[n], cfg, k);
    }
  }

  /** The hourly runs after a send find the window reserved: once a visit ended as sent or uncertain, any
      later visit to the same channel, kind and week or month reports "already sent" and posts nothing,
      whatever was visited in between. A dry run changes nothing at all. */
  lemma LaterRunsAreQuiet(log: Log, v: Visit, between: seq<Visit>, again: Visit, cfg: Settings)
    requires VisitStatus(log, v, cfg).SentAs? || VisitStatus(log, v, cfg).NotRetried?
    requires Eligible(v, cfg) && IsDate(v.post.today) && IsDate(again.post.today)
    requires again.post.channel == v.post.channel && again.post.kind == v.post.kind
    requires SamePeriod(v.post.kind, v.post.today, again.post.today)
    requires again.hour >= cfg.sendHour
    ensures var now := RunLog(VisitLog(log, v, cfg), between, cfg);
            && VisitStatus(now, again, cfg) == AlreadySent
            && VisitLog(now, again, cfg) == now
  {
    WindowsNeverOverlap(v.post.kind, v.post.today, again.post.today);
    assert KeyOf(v.post) == KeyOf(again.post);
    RunKeepsRows(VisitLog(log, v, cfg), between, cfg, KeyOf(v.post));
  }

  lemma {:induction false} DryRunChangesNothing(log: Log, visits: seq<Visit>, cfg: Settings)
    requires cfg.dryRun
    ensures RunLog(log, visits, cfg) == log
    decreases |visits|
  {
    if visits != [] { DryRunChangesNothing(log, visits[..|visits| - 1], cfg); }
  }

  // ----- what a run does for each visit -----------------------------------------------------

  // In the visit's own fields: someone who opted in and has an address, or whose email goes to the override.
  predicate Wanted(v: Visit, cfg: Settings) {
    v.optedIn && (v.email.Some? || cfg.override)
  }

  /** A visit to someone who did not opt in, or has no address, leaves no trace. */
  lemma OthersAreSkipped(log: Log, visits: seq<Visit>, cfg: Settings)
    requires visits != []
    requires var v := visits[|visits| - 1]; !v.optedIn || (v.email.None? && !cfg.override)
    ensures var front := visits[..|visits| - 1];
            && RunLog(log, visits, cfg) == RunLog(log, front, cfg)
            && RunResults(log, visits, cfg) == RunResults(log, front, cfg)
  {
  }

  ghost predicate SlotWanted(visits: seq<Visit>, cfg: Settings, slot: Slot) {
    exists i :: 0 <= i < |visits| && Wanted(visits[i], cfg)
                && visits[i].post.channel == slot.channel && visits[i].post.kind == slot.kind
  }

  lemma SlotWantedNext(visits: seq<Visit>, cfg: Settings, slot: Slot)
    requires visits != []
    ensures var v := visits[|visits| - 1];
            SlotWanted(visits, cfg, slot) <==>
              || SlotWanted(visits[..|visits| - 1], cfg, slot)
              || (Wanted(v, cfg) && v.post.channel == slot.channel && v.post.kind == slot.kind)
  {
    var front := visits[..|visits| - 1];
    if SlotWanted(front, cfg, slot) {
      var i :| 0 <= i < |front| && Wanted(front[i], cfg)
               && front[i].post.channel == slot.channel && front[i].post.kind == slot.kind;
      assert visits[i] == front[i];
    }
    if i :| 0 <= i < |front| && Wanted(visits[i], cfg)
            && visits[i].post.channel == slot.channel && visits[i].post.kind == slot.kind
    {
      assert front[i] == visits[i];
    }
  }

  /** The summary has an entry for exactly the channels and kinds of the wanted visits. */
  lemma {:induction false} SummaryLists(log: Log, visits: seq<Visit>, cfg: Settings, slot: Slot)
    ensures slot in RunResults(log, visits, cfg) <==> SlotWanted(visits, cfg, slot)
    decreases |visits|
  {
    if visits != [] {
      SummaryLists(log, visits[..|visits| - 1], cfg, slot);
      SlotWantedNext(visits, cfg, slot);
    }
  }

  // What the summary says of a wanted visit that finds the log `before`, in order of the checks.
  predicate SaysOf(before: Log, v: Visit, cfg: Settings, status: Status) {
    var taken := KeyOf(v.post) in before;
    if v.hour < cfg.sendHour then status == NotDueYet
    else if taken then status == AlreadySent
    else if cfg.dryRun then status == if v.empty then DryEmpty else WouldSend
    else if v.empty then status == NoLives
    else if KeyOf(v.post) in v.others then status == AlreadySent
    else if !cfg.override && (v.email.None? || v.email.value == "") then status == NoRecipient
    else
      match v.http
      case NoAnswer => status == NotRetried
      case Answered(code, id) =>
        status == if code < 300 && id.Some? && id.value != "" then SentAs(id.value) else Failed
  }

  // No later wanted visit to the same channel and kind.
  predicate LastOfSlot(visits: seq<Visit>, cfg: Settings, i: nat)
    requires i < |visits|
  {
    forall j :: i < j < |visits| && Wanted(visits[j], cfg) ==>
      visits[j].post.channel != visits[i].post.channel || visits[j].post.kind != visits[i].post.kind
  }

  /** And the entry is the verdict of the last of them. */
  lemma {:induction false} SummarySays(log: Log, visits: seq<Visit>, cfg: Settings, i: nat)
    requires i < |visits| && Wanted(visits[i], cfg) && LastOfSlot(visits, cfg, i)
    ensures var slot := Slot(visits[i].post.channel, visits[i].post.kind);
            && slot in RunResults(log, visits, cfg)
            && SaysOf(RunLog(log, visits[..i], cfg), visits[i], cfg, RunResults(log, visits, cfg)[slot])
    decreases |visits|
  {
    var n := |visits| - 1;
    if i < n {
      assert visits[..n][..i] == visits[..i];
      SummarySays(log, visits[..n], cfg, i);
    }
  }

  // Nobody has written the window before this visit's insert: no row at first, none by other runs, and no
  // earlier visit to it.
  predicate WindowFree(log: Log, visits: seq<Visit>, i: nat)
    requires i < |visits|
  {
    && KeyOf(visits[i].post) !in log
    && (forall j :: 0 <= j <= i ==> KeyOf(visits[i].post) !in visits[j].others)
    && (forall j :: 0 <= j < i ==> KeyOf(visits[j].post) != KeyOf(visits[i].post))
  }

  lemma {:induction false} FreeUntil(log: Log, visits: seq<Visit>, cfg: Settings, n: nat, k: Key)
    requires n <= |visits| && k !in log
    requires forall j :: 0 <= j < n ==> k !in visits[j].others && KeyOf(visits[j].post) != k
    ensures k !in RunLog(log, visits[..n], cfg)
  {
    if n > 0 {
      FreeUntil(log, visits, cfg, n - 1, k);
      assert visits[..n][..n - 1] == visits[..n - 1];
    }
  }

  // A due visit to a free window writes its row, unless the mailer says it was not sent.
  lemma VisitWrites(log: Log, v: Visit, cfg: Settings)
    requires v.optedIn && (cfg.override || (v.email.Some? && v.email.value != ""))
    requires v.hour >= cfg.sendHour && !cfg.dryRun && !v.empty
    requires KeyOf(v.post) !in log && KeyOf(v.post) !in v.others && !SendEmail(v.http).NotSent?
    ensures KeyOf(v.post) in VisitLog(log, v, cfg)
    ensures VisitLog(log, v, cfg)[KeyOf(v.post)] == LoggedId(SendEmail(v.http))
  {
  }

  // And what a visit has written stays.
  lemma VisitStays(log: Log, visits: seq<Visit>, cfg: Settings, i: nat, k: Key, id: Option<string>)
    requires i < |visits|
    requires var after := VisitLog(RunLog(log, visits[..i], cfg), visits[i], cfg); k in after && after[k] == id
    ensures k in RunLog(log, visits, cfg) && RunLog(log, visits, cfg)[k] == id
  {
    assert visits[..i + 1][..i] == visits[..i];
    RunGoesOn(log, visits, cfg, i + 1);
    RunKeepsRows(RunLog(log, visits[..i + 1], cfg), visits[i + 1..], cfg, k);
  }

  /** What the digests are for: a visit to someone who opted in and has an address, due, not dry, with something
      to report and an accepted answer, in a window nobody has written, is sent. The log holds its row with the
      provider's id, and the summary says so. */
  lemma DueDigestIsSent(log: Log, visits: seq<Visit>, cfg: Settings, i: nat, code: int, id: string)
    requires i < |visits| && visits[i].optedIn
    requires cfg.override || (visits[i].email.Some? && visits[i].email.value != "")
    requires visits[i].hour >= cfg.sendHour && !cfg.dryRun && !visits[i].empty
    requires visits[i].http == Answered(code, Some(id)) && code < 300 && id != ""
    requires WindowFree(log, visits, i)
    ensures KeyOf(visits[i].post) in RunLog(log, visits, cfg)
    ensures RunLog(log, visits, cfg)[KeyOf(visits[i].post)] == Some(id)
    ensures LastOfSlot(visits, cfg, i) ==>
      && Slot(visits[i].post.channel, visits[i].post.kind) in RunResults(log, visits, cfg)
      && RunResults(log, visits, cfg)[Slot(visits[i].post.channel, visits[i].post.kind)] == SentAs(id)
  {
    FreeUntil(log, visits, cfg, i, KeyOf(visits[i].post));
    VisitWrites(RunLog(log, visits[..i], cfg), visits[i], cfg);
    VisitStays(log, visits, cfg, i, KeyOf(visits[i].post), Some(id));
    if LastOfSlot(visits, cfg, i) { SummarySays(log, visits, cfg, i); }
  }

  lemma {:induction false} RunGoesOn(log: Log, visits: seq<Visit>, cfg: Settings, n: nat)
    requires n <= |visits|
    ensures RunLog(log, visits, cfg) == RunLog(RunLog(log, visits[..n], cfg), visits[n..], cfg)
    decreases |visits|
  {
    if n == |visits| {
      assert visits[..n] == visits;
    } else {
      var m := |visits| - 1;
      RunGoesOn(log, visits[..m], cfg, n);
      assert visits[..m][..n] == visits[..n] && visits[..m][n..] == visits[n..][..m - n];
    }
  }

  /** Rows that other runs commit meanwhile stay, whatever this run does then. */
  lemma OthersRowsStay(log: Log, v: Visit, cfg: Settings, k: Key)
    requires Wanted(v, cfg) && v.hour >= cfg.sendHour && KeyOf(v.post) !in log && !cfg.dryRun
    requires k in v.others && k !in log
    ensures k in VisitLog(log, v, cfg) && VisitLog(log, v, cfg)[k] == v.others[k]
  {
  }

  /** An email whose outcome is unknown keeps its row too, without an id. */
  lemma SilentDigestIsKept(log: Log, visits: seq<Visit>, cfg: Settings, i: nat)
    requires i < |visits| && visits[i].optedIn
    requires cfg.override || (visits[i].email.Some? && visits[i].email.value != "")
    requires visits[i].hour >= cfg.sendHour && !cfg.dryRun && !visits[i].empty && visits[i].http.NoAnswer?
    requires WindowFree(log, visits, i)
    ensures KeyOf(visits[i].post) in RunLog(log, visits, cfg)
    ensures RunLog(log, visits, cfg)[KeyOf(visits[i].post)] == None
  {
    FreeUntil(log, visits, cfg, i, KeyOf(visits[i].post));
    VisitWrites(RunLog(log, visits[..i], cfg), visits[i], cfg);
    VisitStays(log, visits, cfg, i, KeyOf(visits[i].post), None);
  }

  /** One send is a run of the machine of DigestRuns: reserve, post, settle, and nothing else. The status
      word tells the outcome of the one email that was posted. */
  lemma SendOneIsARun(events: seq<Event>, run: RunId, v: Visit, took: bool, cfg: Settings) returns (more: seq<Event>)
    requires Runs(events) && Calm(events) && IsDate(v.post.today) && Honest(v.http, took)
    requires run !in After(events).open && !Held(After(events), KeyOf(v.post))
    ensures events <= more && Runs(more) && Calm(more)
    ensures After(more).log == LogAfter(After(events).log, v, cfg)
    ensures After(more).open == After(events).open
    ensures Posts(After(events).log, v, cfg) ==>
      && After(more).attempts == After(events).attempts + [Attempt(v.post, SendEmail(v.http), took)]
      && StatusAfter(After(events).log, v, cfg) == StatusOf(SendEmail(v.http))
    ensures !Posts(After(events).log, v, cfg) ==> After(more) == After(events)
  {
    var s := After(events);
    if !Posts(s.log, v, cfg) {
      more := events;
    } else {
      ThreeSteps(s, run, v, took);
      more := ThreeOn(events, Reserve(run, v.post), Send(run, v.http, took), Settle(run));
    }
  }

  lemma ThreeSteps(s: State, run: RunId, v: Visit, took: bool)
    requires Enabled(s, Reserve(run, v.post)) && Honest(v.http, took)
    ensures var s1 := Apply(s, Reserve(run, v.post));
            && Enabled(s1, Send(run, v.http, took))
            && var s2 := Apply(s1, Send(run, v.http, took));
               && Enabled(s2, Settle(run))
               && var s3 := Apply(s2, Settle(run));
                  && s3.open == s.open
                  && s3.attempts == s.attempts + [Attempt(v.post, SendEmail(v.http), took)]
                  && s3.log == if SendEmail(v.http).NotSent? then s.log
                               else s.log[KeyOf(v.post) := LoggedId(SendEmail(v.http))]
  {
  }

  lemma ThreeOn(events: seq<Event>, e: Event, f: Event, g: Event) returns (more: seq<Event>)
    requires Runs(events) && Calm(events) && !e.Crash? && !f.Crash? && !g.Crash?
    requires Enabled(After(events), e) && Enabled(Apply(After(events), e), f)
    requires Enabled(Apply(Apply(After(events), e), f), g)
    ensures events <= more && Runs(more) && Calm(more)
    ensures After(more) == Apply(Apply(Apply(After(events), e), f), g)
  {
    StepOn(events, e);
    StepOn(events + [e], f);
    StepOn(events + [e] + [f], g);
    more := events + [e] + [f] + [g];
  }

  lemma StepOn(events: seq<Event>, e: Event)
    requires Runs(events) && Calm(events) && Enabled(After(events), e) && !e.Crash?
    ensures Runs(events + [e]) && Calm(events + [e]) && After(events + [e]) == Apply(After(events), e)
  {
    Extend(events, e);
    var more := events + [e];
    assert more[..|more| - 1] == events;
  }
}
