/**
 The digest log as a state machine: any number of runs of scripts/send_email_digests.py, interleaved,
 each reserving a row, posting the email and committing or rolling back. A run that dies loses its
 open transaction. The mail provider is free to accept or refuse whatever it is sent.
 */
module DigestRuns {
  import opened Wrappers
  import opened Calendar

  type ChannelId = nat
  type RunId = nat

  // One digest: `today` is the local date of the run that sends it.
  datatype Post = Post(channel: ChannelId, kind: Period, today: Date)

  // The unique constraint of EmailDigestLog.
  datatype Key = Key(channel: ChannelId, kind: Period, start: int)

  function WindowOf(p: Post): Window {
    LastPeriod(p.kind, p.today)
  }

  function KeyOf(p: Post): Key {
    Key(p.channel, p.kind, WindowOf(p).start)
  }

  /** Two digests share a row exactly when they are for one channel and kind and one week or month. */
  lemma KeyTells(p: Post, q: Post)
    requires IsDate(p.today) && IsDate(q.today)
    ensures KeyOf(p) == KeyOf(q) <==>
      p.channel == q.channel && p.kind == q.kind && SamePeriod(p.kind, p.today, q.today)
  {
    if p.kind == q.kind {
      WindowsNeverOverlap(p.kind, p.today, q.today);
      WindowIsTheLastCompleteOne(p.kind, p.today);
      WindowIsTheLastCompleteOne(q.kind, q.today);
    }
  }

  // ----- the mailer --------------------------------------------------------------------

  datatype HttpResult = NoAnswer | Answered(status: int, id: Option<string>)

  datatype Outcome = Accepted(id: string) | NotSent | Uncertain

  function SendEmail(http: HttpResult): Outcome {
    match http
    case NoAnswer => Uncertain
    case Answered(status, id) =>
      if status >= 300 then NotSent
      else if id.None? || id.value == "" then NotSent
      else Accepted(id.value)
  }

  // What the provider does: `took` says whether it holds the email now. An answer below 300 with a message
  // id means it does, any other answer that it does not, and silence may mean either.
  predicate Honest(http: HttpResult, took: bool) {
    http.Answered? ==> (took <==> http.status < 300 && http.id.Some? && http.id.value != "")
  }

  // What EmailDigestLog.provider_message_id is set to when the row is kept.
  function LoggedId(o: Outcome): Option<string> {
    if o.Accepted? then Some(o.id) else None
  }

  // ----- the machine -------------------------------------------------------------------

  // An open transaction that holds a reservation. `attempt` is the index of its email, once posted.
  datatype Txn = Txn(post: Post, attempt: Option<nat>)

  datatype Attempt = Attempt(post: Post, outcome: Outcome, took: bool)

  // `log` holds the committed rows; `attempts` is history, every request the provider was sent.
  datatype State = State(log: map<Key, Option<string>>, open: map<RunId, Txn>, attempts: seq<Attempt>)

  datatype Event =
    | Reserve(run: RunId, post: Post)
    | Send(run: RunId, http: HttpResult, took: bool)
    | Settle(run: RunId)
    | Crash(run: RunId)

  predicate Held(s: State, k: Key) {
    exists r :: r in s.open && KeyOf(s.open[r].post) == k
  }

  // A second insert of a row that another transaction holds waits for that transaction.
  predicate Enabled(s: State, e: Event) {
    match e
    case Reserve(r, p) => IsDate(p.today) && r !in s.open && KeyOf(p) !in s.log && !Held(s, KeyOf(p))
    case Send(r, http, took) => r in s.open && s.open[r].attempt.None? && Honest(http, took)
    case Settle(r) => r in s.open && s.open[r].attempt.Some? && s.open[r].attempt.value < |s.attempts|
    case Crash(r) => r in s.open
  }

  function Apply(s: State, e: Event): State
    requires Enabled(s, e)
  {
    match e
    case Reserve(r, p) => s.(open := s.open[r := Txn(p, None)])
    case Send(r, http, took) =>
      var t := s.open[r];
      s.(open := s.open[r := Txn(t.post, Some(|s.attempts|))],
         attempts := s.attempts + [Attempt(t.post, SendEmail(http), took)])
    case Settle(r) =>
      var a := s.attempts[s.open[r].attempt.value];
      State(if a.outcome.NotSent? then s.log else s.log[KeyOf(a.post) := LoggedId(a.outcome)], s.open - {r}, s.attempts)
    case Crash(r) => s.(open := s.open - {r})
  }

  const INITIAL := State(map[], map[], [])

  predicate Runs(events: seq<Event>)
    decreases |events|, 0
  {
    events == [] ||
    (Runs(events[..|events| - 1]) && Enabled(After(events[..|events| - 1]), events[|events| - 1]))
  }

  function After(events: seq<Event>): State
    requires Runs(events)
    decreases |events|, 1
  {
    if events == [] then INITIAL
    else Apply(After(events[..|events| - 1]), events[|events| - 1])
  }

  // A crash is harmless unless an email has left that the provider may hold.
  predicate Harmless(s: State, e: Event) {
    e.Crash? && e.run in s.open && s.open[e.run].attempt.Some? && s.open[e.run].attempt.value < |s.attempts| ==>
      s.attempts[s.open[e.run].attempt.value].outcome.NotSent?
  }

  predicate Calm(events: seq<Event>)
    requires Runs(events)
    decreases |events|
  {
    events == [] ||
    (Calm(events[..|events| - 1]) && Harmless(After(events[..|events| - 1]), events[|events| - 1]))
  }

  // ----- what every step keeps -----------------------------------------------------------

  predicate TxnOk(s: State, r: RunId)
    requires r in s.open
  {
    var t := s.open[r];
    && IsDate(t.post.today)
    && KeyOf(t.post) !in s.log
    && (t.attempt.Some? ==> t.attempt.value < |s.attempts| && s.attempts[t.attempt.value].post == t.post)
  }

  predicate OneHolder(s: State) {
    forall q, r :: q in s.open && r in s.open && KeyOf(s.open[q].post) == KeyOf(s.open[r].post) ==> q == r
  }

  predicate Posting(s: State, r: RunId, i: nat) {
    r in s.open && s.open[r].attempt == Some(i)
  }

  // An attempt that may have reached the provider is in the log, or about to be.
  ghost predicate Remembered(s: State, i: nat)
    requires i < |s.attempts|
  {
    var a := s.attempts[i];
    && IsDate(a.post.today)
    && (a.outcome.NotSent? || KeyOf(a.post) in s.log || exists r :: Posting(s, r, i))
  }

  predicate FailedBefore(s: State, i: nat, j: nat)
    requires i < j < |s.attempts|
  {
    KeyOf(s.attempts[i].post) == KeyOf(s.attempts[j].post) ==> s.attempts[i].outcome.NotSent?
  }

  ghost predicate Inv(s: State) {
    && (forall r :: r in s.open ==> TxnOk(s, r))
    && OneHolder(s)
    && (forall i: nat :: i < |s.attempts| ==> Remembered(s, i))
    && (forall i: nat, j: nat :: i < j < |s.attempts| ==> FailedBefore(s, i, j))
  }

  lemma StepInv(s: State, e: Event)
    requires Inv(s) && Enabled(s, e) && Harmless(s, e)
    ensures Inv(Apply(s, e))
  {
    match e
    case Reserve(r, p) => ReserveInv(s, r, p);
    case Send(r, http, took) => SendInv(s, r, http, took);
    case Settle(r) => CloseInv(s, e);
    case Crash(r) => CloseInv(s, e);
  }

  lemma ReserveInv(s: State, r: RunId, p: Post)
    requires Inv(s) && Enabled(s, Reserve(r, p))
    ensures Inv(Apply(s, Reserve(r, p)))
  {
    var t := Apply(s, Reserve(r, p));
    forall q | q in t.open ensures TxnOk(t, q) {
      if q != r { assert TxnOk(s, q); }
    }
    forall i: nat | i < |t.attempts| ensures Remembered(t, i) {
      assert Remembered(s, i);
      if x :| Posting(s, x, i) { assert Posting(t, x, i); }
    }
    forall i: nat, j: nat | i < j < |t.attempts| ensures FailedBefore(t, i, j) {
      assert FailedBefore(s, i, j);
    }
  }

  lemma SendRemembered(s: State, r: RunId, http: HttpResult, took: bool, i: nat)
    requires Enabled(s, Send(r, http, took)) && TxnOk(s, r)
    requires i <= |s.attempts| && (i < |s.attempts| ==> Remembered(s, i))
    ensures Remembered(Apply(s, Send(r, http, took)), i)
  {
    var t := Apply(s, Send(r, http, took));
    if i < |s.attempts| {
      if x :| Posting(s, x, i) { assert Posting(t, x, i); }
    } else {
      assert Posting(t, r, i);
    }
  }

  lemma SendInv(s: State, r: RunId, http: HttpResult, took: bool)
    requires Inv(s) && Enabled(s, Send(r, http, took))
    ensures Inv(Apply(s, Send(r, http, took)))
  {
    var t := Apply(s, Send(r, http, took));
    var n := |s.attempts|;
    assert TxnOk(s, r);
    forall q | q in t.open ensures TxnOk(t, q) {
      if q != r { assert TxnOk(s, q); }
    }
    forall i: nat | i < |t.attempts| ensures Remembered(t, i) {
      SendRemembered(s, r, http, took, i);
    }
    forall i: nat, j: nat | i < j < |t.attempts| ensures FailedBefore(t, i, j) {
      if j < n {
        assert FailedBefore(s, i, j);
      } else {
        NothingPendingBefore(s, r, i);
      }
    }
  }

  // While a run holds a window and has not posted, every earlier email of that window failed.
  lemma NothingPendingBefore(s: State, r: RunId, i: nat)
    requires OneHolder(s) && r in s.open && s.open[r].attempt.None? && TxnOk(s, r)
    requires forall q :: q in s.open ==> TxnOk(s, q)
    requires i < |s.attempts| && Remembered(s, i)
    ensures KeyOf(s.attempts[i].post) == KeyOf(s.open[r].post) ==> s.attempts[i].outcome.NotSent?
  {
    if x :| Posting(s, x, i) { assert TxnOk(s, x); }
  }

  lemma CloseInv(s: State, e: Event)
    requires Inv(s) && Enabled(s, e) && Harmless(s, e) && (e.Settle? || e.Crash?)
    ensures Inv(Apply(s, e))
  {
    var t := Apply(s, e);
    assert TxnOk(s, e.run);
    forall q | q in t.open ensures TxnOk(t, q) {
      assert TxnOk(s, q);
    }
    forall i: nat | i < |t.attempts| ensures Remembered(t, i) {
      assert Remembered(s, i);
      if x :| Posting(s, x, i) {
        if x != e.run { assert Posting(t, x, i); }
      }
    }
    forall i: nat, j: nat | i < j < |t.attempts| ensures FailedBefore(t, i, j) {
      assert FailedBefore(s, i, j);
    }
  }

  lemma {:induction false} InvAlways(events: seq<Event>)
    requires Runs(events) && Calm(events)
    ensures Inv(After(events))
    decreases |events|
  {
    if events != [] {
      var before := events[..|events| - 1];
      InvAlways(before);
      StepInv(After(before), events[|events| - 1]);
    }
  }

  // ----- the theorems ---------------------------------------------------------------------

  /** For every channel, kind and window, each email but the last was definitely not sent: at most one
      is accepted by the provider, and after an accepted or an uncertain one none follows. */
  lemma SentAtMostOnce(events: seq<Event>, i: nat, j: nat)
    requires Runs(events) && Calm(events)
    requires i < j < |After(events).attempts|
    requires KeyOf(After(events).attempts[i].post) == KeyOf(After(events).attempts[j].post)
    ensures After(events).attempts[i].outcome.NotSent?
  {
    InvAlways(events);
    assert FailedBefore(After(events), i, j);
  }

  /** What the run believes of an email is what the provider did: accepted emails are held, emails reported
      as not sent are not, and only silence leaves it open. */
  lemma {:induction false} OutcomesAreHonest(events: seq<Event>, i: nat)
    requires Runs(events) && i < |After(events).attempts|
    ensures var a := After(events).attempts[i]; (a.outcome.Accepted? ==> a.took) && (a.outcome.NotSent? ==> !a.took)
    decreases |events|
  {
    var front, e := events[..|events| - 1], events[|events| - 1];
    var s := After(front);
    if i < |s.attempts| {
      OutcomesAreHonest(front, i);
      assert After(events).attempts[i] == s.attempts[i];
    } else {
      assert e.Send? && Honest(e.http, e.took);
      assert After(events).attempts[i] == Attempt(s.open[e.run].post, SendEmail(e.http), e.took);
    }
  }

  /** The provider never holds two emails of one channel, kind and window. */
  lemma HeldAtMostOnce(events: seq<Event>, i: nat, j: nat)
    requires Runs(events) && Calm(events)
    requires i < j < |After(events).attempts|
    requires KeyOf(After(events).attempts[i].post) == KeyOf(After(events).attempts[j].post)
    ensures !After(events).attempts[i].took
  {
    SentAtMostOnce(events, i, j);
    OutcomesAreHonest(events, i);
  }

  /** Two emails of one channel and kind that the provider may hold report windows that share no day. */
  lemma NoDayReportedTwice(events: seq<Event>, i: nat, j: nat)
    requires Runs(events) && Calm(events)
    requires i < j < |After(events).attempts|
    requires var a, b := After(events).attempts[i], After(events).attempts[j];
             && a.post.channel == b.post.channel && a.post.kind == b.post.kind
             && !a.outcome.NotSent? && !b.outcome.NotSent?
    ensures var v, w := WindowOf(After(events).attempts[i].post), WindowOf(After(events).attempts[j].post);
            v.end <= w.start || w.end <= v.start
  {
    var s := After(events);
    InvAlways(events);
    assert FailedBefore(s, i, j) && Remembered(s, i) && Remembered(s, j);
    var a, b := s.attempts[i].post, s.attempts[j].post;
    assert KeyOf(a) != KeyOf(b);
    assert WindowOf(a) != WindowOf(b);
    WindowsNeverOverlap(a.kind, a.today, b.today);
  }

  /** The rows of the log are exactly the emails that may have been sent, once nothing is in flight. */
  lemma LogIsTheSentEmails(events: seq<Event>, k: Key)
    requires Runs(events) && Calm(events) && After(events).open == map[]
    ensures k in After(events).log <==>
      exists i: nat :: i < |After(events).attempts| && Kept(After(events), i, k)
  {
    var s := After(events);
    InvAlways(events);
    if k in s.log {
      var i := RowHasAnEmail(events, k);
    }
    forall i: nat | i < |s.attempts| && Kept(s, i, k) ensures k in s.log {
      assert Remembered(s, i);
      if x :| Posting(s, x, i) { assert x in s.open; }
    }
  }

  predicate Kept(s: State, i: nat, k: Key)
    requires i < |s.attempts|
  {
    KeyOf(s.attempts[i].post) == k && !s.attempts[i].outcome.NotSent?
  }

  /** A row carries the message id the provider returned for that very window. */
  lemma {:induction false} RowHasAnEmail(events: seq<Event>, k: Key) returns (i: nat)
    requires Runs(events) && k in After(events).log
    ensures i < |After(events).attempts| && Kept(After(events), i, k)
    ensures After(events).log[k] == LoggedId(After(events).attempts[i].outcome)
    decreases |events|
  {
    var before, e := events[..|events| - 1], events[|events| - 1];
    var s := After(before);
    if e.Settle? && KeyOf(s.attempts[s.open[e.run].attempt.value].post) == k
       && !s.attempts[s.open[e.run].attempt.value].outcome.NotSent? {
      i := s.open[e.run].attempt.value;
    } else {
      i := RowHasAnEmail(before, k);
    }
  }

  /** A definite failure stays retryable: settling it leaves the log as it was, and any run may reserve
      the same window again. */
  lemma FailureIsRetryable(events: seq<Event>, run: RunId, again: RunId)
    requires Runs(events) && Calm(events)
    requires Enabled(After(events), Settle(run)) && again !in After(events).open - {run}
    requires After(events).attempts[After(events).open[run].attempt.value].outcome.NotSent?
    ensures Apply(After(events), Settle(run)).log == After(events).log
    ensures Enabled(Apply(After(events), Settle(run)), Reserve(again, After(events).open[run].post))
  {
    var s := After(events);
    InvAlways(events);
    assert TxnOk(s, run);
    var t := Apply(s, Settle(run));
    var k := KeyOf(s.open[run].post);
    forall r | r in t.open ensures KeyOf(t.open[r].post) != k {
      assert r in s.open && r != run;
    }
  }

  /** The one crash the design does not survive, in full: whenever a run dies after its email left and
      before its commit, the window is free again and the next run sends it a second time. So emails are
      sent at most once if no run crashes there, and a single crash there is enough to break it. */
  lemma CrashBeforeCommitRepeats(events: seq<Event>, run: RunId, http: HttpResult, took: bool)
    requires Runs(events) && Calm(events) && Honest(http, took)
    requires Enabled(After(events), Crash(run)) && !Harmless(After(events), Crash(run))
    ensures var s := After(events);
            var post := s.open[run].post;
            var more := events + [Crash(run)] + [Reserve(run, post)] + [Send(run, http, took)];
            Runs(more) && RepeatedSend(After(more), s.open[run].attempt.value, |s.attempts|)
  {
    var s := After(events);
    InvAlways(events);
    assert TxnOk(s, run);
    var post := s.open[run].post;
    Extend(events, Crash(run));
    var one := events + [Crash(run)];
    var s1 := After(one);
    assert !Held(s1, KeyOf(post));
    Extend(one, Reserve(run, post));
    var two := one + [Reserve(run, post)];
    Extend(two, Send(run, http, took));
  }

  predicate RepeatedSend(s: State, i: nat, j: nat) {
    && i < j < |s.attempts|
    && KeyOf(s.attempts[i].post) == KeyOf(s.attempts[j].post)
    && !s.attempts[i].outcome.NotSent?
  }

  lemma Extend(events: seq<Event>, e: Event)
    requires Runs(events) && Enabled(After(events), e)
    ensures Runs(events + [e]) && After(events + [e]) == Apply(After(events), e)
  {
    var more := events + [e];
    assert more[..|more| - 1] == events;
  }
}
