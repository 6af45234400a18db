/**
 The EventSub webhook: order of checks, the freshness window, the dedup table and its pruning
 (core/eventsub.py, apps/api/eventsub.py). Times are seconds.
 */
module EventSub {
  import opened Numbers

  type Time = int
  type MessageId = string

  const MESSAGE_MAX_AGE_SECONDS: int := 600
  const DEDUP_TTL_SECONDS: int := 600

  datatype Kind = Verification | Notification | Revocation | Unknown

  // The timestamp header: not a date, a date without a zone, or a moment.
  datatype Stamp = Unreadable | Zoneless | Moment(at: Time)

  // The clock while a delivery is served: read for freshness, read again for pruning, and the
  // database's own for the row.
  datatype Clocks = Clocks(checked: Time, pruned: Time, received: Time)

  // One delivery: whether a secret is configured, its headers, whether its signature matches, its body
  // is JSON and has the keys its kind reads before any claim, and whether its handler raises.
  datatype Delivery = Delivery(
    configured: bool, id: MessageId, sentAt: Stamp, signed: bool, kind: Kind, json: bool, complete: bool,
    handlerRaises: bool, now: Clocks)

  datatype Reply = Code(status: int) | Challenge

  // The freshness and the dedup window.
  datatype Windows = Windows(maxAge: int, ttl: int)

  datatype Handling = Handling(id: MessageId, now: Clocks)

  // `claims` is the eventsub_messages table; `handled` is history, every call of the handler.
  datatype State = State(claims: map<MessageId, Time>, handled: seq<Handling>)

  predicate Fresh(sentAt: Time, now: Time, w: Windows) {
    (if now >= sentAt then now - sentAt else sentAt - now) <= w.maxAge
  }

  function Pruned(claims: map<MessageId, Time>, now: Time, w: Windows): map<MessageId, Time> {
    map id | id in claims && claims[id] >= now - w.ttl :: claims[id]
  }

  function Claim(claims: map<MessageId, Time>, id: MessageId, now: Clocks, w: Windows): map<MessageId, Time> {
    var kept := Pruned(claims, now.pruned, w);
    if id in kept then kept else kept[id := now.received]
  }

  // Past the signature and the freshness check.
  predicate Authentic(d: Delivery, w: Windows) {
    d.configured && d.signed && d.sentAt.Moment? && Fresh(d.sentAt.at, d.now.checked, w)
  }

  predicate Reaches(d: Delivery, w: Windows) {
    Authentic(d, w) && d.json && d.kind.Notification?
  }

  predicate Handles(claims: map<MessageId, Time>, d: Delivery, w: Windows) {
    Reaches(d, w) && d.id !in Pruned(claims, d.now.pruned, w)
  }

  function Serve(s: State, d: Delivery, w: Windows): State {
    if !Reaches(d, w) then s
    else
      State(Claim(s.claims, d.id, d.now, w),
            if Handles(s.claims, d, w) then s.handled + [Handling(d.id, d.now)] else s.handled)
  }

  function ServeAll(ds: seq<Delivery>, w: Windows): State {
    if ds == [] then State(map[], []) else Serve(ServeAll(ds[..|ds| - 1], w), ds[|ds| - 1], w)
  }

  // No further than the freshness window from its timestamp, on either side.
  predicate Near(d: Delivery, w: Windows) {
    d.sentAt.Moment? && d.sentAt.at - w.maxAge <= d.now.checked <= d.sentAt.at + w.maxAge
  }

  predicate Accepted(d: Delivery, w: Windows) {
    d.configured && d.signed && Near(d, w)
  }

  /** The webhook's own objects: the dedup table, and the order in which a delivery is judged. */
  class Webhook {
    var claims: map<MessageId, Time>
    var handled: seq<Handling>

    constructor ()
      ensures View() == State(map[], [])
    {
      claims, handled := map[], [];
    }

    function View(): State
      reads this
    {
      State(claims, handled)
    }

    /** Prunes, then inserts unless the id is there: committed at once. */
    method ClaimMessage(id: MessageId, now: Clocks, w: Windows) returns (claimed: bool)
      modifies `claims
      ensures claims == Claim(old(claims), id, now, w)
      ensures claimed <==> id !in Pruned(old(claims), now.pruned, w)
      ensures forall k :: k in claims ==> claims[k] >= now.pruned - w.ttl || (k == id && claims[k] == now.received)
    {
      claims := map k | k in claims && !(claims[k] < now.pruned - w.ttl) :: claims[k];
      claimed := id !in claims;
      if claimed {
        claims := claims[id := now.received];
      }
    }

    method Callback(d: Delivery, w: Windows) returns (reply: Reply)
      modifies this
      ensures View() == Serve(old(View()), d, w)
      ensures reply == Code(503) <==> !d.configured
      ensures reply == Code(403) <==>
        d.configured && (!d.signed || d.sentAt == Unreadable || (d.sentAt.Moment? && !Near(d, w)))
      ensures reply == Code(500) <==>
        || (d.configured && d.signed && d.sentAt == Zoneless)
        || (Accepted(d, w) && !d.json)
        || (Accepted(d, w) && !d.complete && (d.kind == Verification || d.kind == Revocation))
        || (handled != old(handled) && d.handlerRaises)
      ensures reply == Challenge <==> Accepted(d, w) && d.json && d.complete && d.kind == Verification
      ensures reply == Code(400) <==> Accepted(d, w) && d.json && d.kind == Unknown
      ensures reply == Challenge || reply.status in {204, 400, 403, 500, 503}
    {
      if !d.configured { return Code(503); }
      if !d.signed { return Code(403); }
      match d.sentAt {
        case Unreadable => return Code(403);
        case Zoneless => return Code(500);
        case Moment(at) => if !Fresh(at, d.now.checked, w) { return Code(403); }
      }
      if !d.json { return Code(500); }
      if d.kind.Verification? { return if d.complete then Challenge else Code(500); }
      if d.kind.Revocation? { return Code(if d.complete then 204 else 500); }
      if !d.kind.Notification? { return Code(400); }
      var claimed := ClaimMessage(d.id, d.now, w);
      if !claimed { return Code(204); }
      handled := handled + [Handling(d.id, d.now)];
      return Code(if d.handlerRaises then 500 else 204);
    }
  }

  /** What a delivery does, in its own fields: only a signed, fresh notification whose body is JSON reaches the
      table, and its handler is called exactly when no row of the last `ttl` seconds has its id; then one row
      is added and one call made. Everything else changes nothing. */
  lemma DeliveryIs(s: State, d: Delivery, w: Windows)
    ensures var r := Serve(s, d, w);
            var reaches := d.configured && d.signed && Near(d, w) && d.json && d.kind == Notification;
            var seen := d.id in s.claims && s.claims[d.id] >= d.now.pruned - w.ttl;
            && (!reaches ==> r == s)
            && (reaches && seen ==> r.handled == s.handled && r.claims[d.id] == s.claims[d.id])
            && (reaches && !seen ==>
                  r.handled == s.handled + [Handling(d.id, d.now)] && r.claims[d.id] == d.now.received)
            && (reaches ==> forall k :: k != d.id ==>
                  (k in r.claims <==> k in s.claims && s.claims[k] >= d.now.pruned - w.ttl)
                  && (k in r.claims ==> r.claims[k] == s.claims[k]))
  {
  }

  // ----- every run -------------------------------------------------------------------

  // How far clocks and readings may be apart: a message arrives up to `skew` before it says it was sent and
  // up to `span` after, the second reading comes up to `late` after the first, and the database's clock is up
  // to `drift` behind it.
  datatype Timing = Timing(skew: nat, span: nat, late: nat, drift: nat)

  predicate InStep(now: Clocks, t: Timing) {
    now.checked <= now.pruned <= now.checked + t.late && now.received >= now.pruned - t.drift
  }

  predicate OnTime(d: Delivery, sent: MessageId -> Time, t: Timing) {
    && InStep(d.now, t)
    && (d.signed && d.sentAt.Moment? ==>
          d.sentAt.at == sent(d.id) && sent(d.id) - t.skew <= d.now.checked <= sent(d.id) + t.span)
  }

  // The clock does not go back from one claim to the next, and each id is signed with one timestamp. Whatever
  // else is sent without a matching signature is of no account.
  ghost predicate Orderly(ds: seq<Delivery>, sent: MessageId -> Time, t: Timing) {
    && (forall i, j :: 0 <= i < j < |ds| ==> ds[i].now.pruned <= ds[j].now.pruned)
    && (forall i :: 0 <= i < |ds| ==> OnTime(ds[i], sent, t))
  }

  ghost predicate AtMostOnce(handled: seq<Handling>) {
    forall i, j :: 0 <= i < j < |handled| ==> handled[i].id != handled[j].id
  }

  // The dedup window reaches from the earliest row of a message to the latest pruning it can cause.
  predicate Covers(t: Timing, w: Windows) {
    Min(t.skew, w.maxAge) + Min(t.span, w.maxAge) + t.late + t.drift <= w.ttl
  }

  // Every handling is still claimed, or its row is older than the dedup window at the last pruning; and its
  // row is not much older than its message.
  ghost predicate Remembered(s: State, last: Time, sent: MessageId -> Time, t: Timing, w: Windows) {
    && AtMostOnce(s.handled)
    && forall i :: 0 <= i < |s.handled| ==>
         var h := s.handled[i];
         && sent(h.id) <= h.now.received + t.drift + Min(t.skew, w.maxAge)
         && ((h.id in s.claims && s.claims[h.id] == h.now.received) || h.now.received < last - w.ttl)
  }

  lemma ServeRemembers(s: State, d: Delivery, last: Time, sent: MessageId -> Time, t: Timing, w: Windows)
    requires Covers(t, w)
    requires Remembered(s, last, sent, t, w) && last <= d.now.pruned && OnTime(d, sent, t)
    ensures Remembered(Serve(s, d, w), d.now.pruned, sent, t, w)
  {
    if Reaches(d, w) {
      forall i | 0 <= i < |s.handled| && s.handled[i].id == d.id
        ensures d.id in Pruned(s.claims, d.now.pruned, w)
      {
        var h := s.handled[i];
        assert d.now.pruned <= sent(d.id) + Min(t.span, w.maxAge) + t.late <= h.now.received + w.ttl;
      }
    }
  }

  lemma {:induction false} RunRemembers(ds: seq<Delivery>, sent: MessageId -> Time, t: Timing, w: Windows)
    requires Covers(t, w) && Orderly(ds, sent, t)
    ensures AtMostOnce(ServeAll(ds, w).handled)
    ensures ds != [] ==> Remembered(ServeAll(ds, w), ds[|ds| - 1].now.pruned, sent, t, w)
  {
    if ds != [] {
      var n := |ds| - 1;
      RunRemembers(ds[..n], sent, t, w);
      var last := if n == 0 then ds[n].now.pruned else ds[n - 1].now.pruned;
      ServeRemembers(ServeAll(ds[..n], w), ds[n], last, sent, t, w);
    }
  }

  /** A request without a matching signature may name any id and any timestamp: it changes nothing, and a run
      with it is as orderly as without it. */
  lemma ForgeriesDoNotMatter(ds: seq<Delivery>, d: Delivery, sent: MessageId -> Time, t: Timing, w: Windows)
    requires Orderly(ds, sent, t) && !d.signed
    requires InStep(d.now, t) && (ds != [] ==> ds[|ds| - 1].now.pruned <= d.now.pruned)
    ensures Orderly(ds + [d], sent, t) && ServeAll(ds + [d], w) == ServeAll(ds, w)
  {
    assert (ds + [d])[..|ds|] == ds;
    assert OnTime(d, sent, t);
  }

  // Every orderly run with these windows handles every id at most once.
  ghost predicate Safe(t: Timing, w: Windows) {
    forall ds: seq<Delivery>, sent: MessageId -> Time :: Orderly(ds, sent, t) ==> AtMostOnce(ServeAll(ds, w).handled)
  }

  function Arrival(sentAt: Time, now: Clocks): Delivery {
    Delivery(true, "m", Moment(sentAt), true, Notification, true, true, false, now)
  }

  // One message, delivered as early as its timestamp allows, with a row as old as can be, and again as late
  // as it is fresh, pruning as late as can be.
  function EarlyAndLate(t: Timing, w: Windows): seq<Delivery> {
    var ahead := Min(t.skew, w.maxAge);
    var end := ahead + Min(t.span, w.maxAge);
    [Arrival(ahead, Clocks(0, 0, -(t.drift as int))), Arrival(ahead, Clocks(end, end + t.late, end + t.late))]
  }

  lemma EarlyAndLateTwice(t: Timing, w: Windows)
    requires 0 <= w.maxAge && !Covers(t, w)
    ensures Orderly(EarlyAndLate(t, w), (m: MessageId) => Min(t.skew, w.maxAge), t)
    ensures !AtMostOnce(ServeAll(EarlyAndLate(t, w), w).handled)
  {
    var ds := EarlyAndLate(t, w);
    assert ds[..1][..0] == [] && ds[..1][0] == ds[0];
    assert ServeAll([], w) == State(map[], []);
    var s1 := ServeAll(ds[..1], w);
    assert s1 == State(map["m" := -(t.drift as int)], [Handling("m", ds[0].now)]);
    assert "m" !in Pruned(s1.claims, ds[1].now.pruned, w);
    assert ds[..|ds| - 1] == ds[..1];
    var handled := ServeAll(ds, w).handled;
    assert handled == [Handling("m", ds[0].now), Handling("m", ds[1].now)];
    assert handled[0].id == handled[1].id;
  }

  /** How the two windows fit, exactly: handling is at most once over all runs of deliveries and retries,
      although old claims are pruned, if and only if the dedup window covers the part of the skew and the part
      of the retries that pass as fresh, the delay between the two clock readings and the drift of the
      database's clock. */
  lemma WindowsFitExactly(t: Timing, w: Windows)
    requires 0 <= w.maxAge
    ensures Safe(t, w) <==> Min(t.skew, w.maxAge) + Min(t.span, w.maxAge) + t.late + t.drift <= w.ttl
  {
    if Covers(t, w) {
      forall ds: seq<Delivery>, sent: MessageId -> Time | Orderly(ds, sent, t)
        ensures AtMostOnce(ServeAll(ds, w).handled)
      {
        RunRemembers(ds, sent, t, w);
      }
    } else {
      EarlyAndLateTwice(t, w);
    }
  }

  /** With the source's own numbers there is no slack for retries that use the whole fresh window: each id
      is handled at most once in every run if and only if all clock readings of a delivery agree and none
      precedes the message. */
  lemma SourceWindowsHaveNoSlack(t: Timing)
    requires t.span >= MESSAGE_MAX_AGE_SECONDS
    ensures Safe(t, Windows(MESSAGE_MAX_AGE_SECONDS, DEDUP_TTL_SECONDS)) <==> t.skew == t.late == t.drift == 0
  {
    WindowsFitExactly(t, Windows(MESSAGE_MAX_AGE_SECONDS, DEDUP_TTL_SECONDS));
  }

  /** Whatever the clocks do, with the source's numbers each id is handled at most once as long as the retries
      that pass as fresh stop early enough for skew, delay and drift. */
  lemma HandledAtMostOnce(ds: seq<Delivery>, sent: MessageId -> Time, t: Timing)
    requires Orderly(ds, sent, t) && Covers(t, Windows(MESSAGE_MAX_AGE_SECONDS, DEDUP_TTL_SECONDS))
    ensures AtMostOnce(ServeAll(ds, Windows(MESSAGE_MAX_AGE_SECONDS, DEDUP_TTL_SECONDS)).handled)
  {
    RunRemembers(ds, sent, t, Windows(MESSAGE_MAX_AGE_SECONDS, DEDUP_TTL_SECONDS));
  }

  /** Rows kept after a claim are never older than the dedup window, unless the clock that dated them is
      behind, so the table never grows past it. */
  lemma ClaimsStayYoung(ds: seq<Delivery>, drift: nat, w: Windows)
    requires ds != [] && Reaches(ds[|ds| - 1], w) && 0 <= w.ttl
    requires ds[|ds| - 1].now.received >= ds[|ds| - 1].now.pruned - drift
    ensures forall id :: id in ServeAll(ds, w).claims ==>
              ServeAll(ds, w).claims[id] >= ds[|ds| - 1].now.pruned - Max(w.ttl, drift)
  {
  }
}
