/** What one request's own steps keep, whatever everybody else does in between. */
module Tickets {
  import opened Sequences
  import opened Identities
  import opened RoundRobin
  import opened InsertionDict
  import opened StickySession
  import opened StickyIp
  import opened IpTracking
  import opened Requests

  predicate Failure(o: Outcome) {
    !o.Reply? && !o.Unexpected?
  }

  ghost predicate Retried(t: Ticket, n: nat) {
    n <= |t.outcomes| && forall i :: 0 <= i < n ==> Failure(t.outcomes[i]) && SafeToRetry(t.verb, t.outcomes[i])
  }

  /** The last attempt was not written off as failed: it is under way, or a reply or a surprise ended it. */
  predicate Open(t: Ticket) {
    match t.phase
    case Choosing => false
    case Waiting(_) => true
    case Answered(a) => a.Upstream? || a.TooManyErrors? || a.InternalError?
  }

  /** The answer that an attempt's outcome calls for: a reply is passed on, unless it is a 404 too many. */
  predicate Befits(answer: Answer, o: Outcome) {
    match answer
    case Upstream(status) => o == Reply(status)
    case TooManyErrors => o == Reply(404)
    case InternalError => o == Unexpected
    case AllFailed(status) =>
      || (status == 502 && o == OtherRequestError)
      || (status == 504 && (o == ConnectError || o == ConnectTimeout || o == OtherTimeout))
    case _ => false
  }

  /** How attempts, failures and the phase of a request fit together. */
  ghost predicate Consistent(t: Ticket, l: Limits) {
    && |t.tried| == t.attempt + (if Open(t) then 1 else 0)
    && t.attempt <= l.maxAttempts
    && match t.phase
       case Choosing => |t.outcomes| == t.attempt < l.maxAttempts && Retried(t, t.attempt)
       case Waiting(server) =>
         && |t.outcomes| == t.attempt < l.maxAttempts && Retried(t, t.attempt)
         && t.tried[t.attempt] == server
       case Answered(NoHealthyBackend) => |t.outcomes| == t.attempt && Retried(t, t.attempt)
       case Answered(AllFailed(_)) =>
         && |t.outcomes| == t.attempt >= 1 && Retried(t, t.attempt - 1)
         && Failure(t.outcomes[t.attempt - 1]) && Befits(t.phase.answer, t.outcomes[t.attempt - 1])
         && (t.attempt < l.maxAttempts ==> !SafeToRetry(t.verb, t.outcomes[t.attempt - 1]))
       case Answered(_) =>
         && Open(t)
         && |t.outcomes| == t.attempt + 1 <= l.maxAttempts && Retried(t, t.attempt)
         && !Failure(t.outcomes[t.attempt]) && Befits(t.phase.answer, t.outcomes[t.attempt])
  }

  lemma PickIsConsistent(t: Ticket, s: Shared, l: Limits)
    requires s.Valid() && t.phase.Choosing? && Consistent(t, l)
    ensures Consistent(PickStep(t, s, l).0, l)
  {
  }

  lemma OutcomeIsConsistent(t: Ticket, o: Outcome, limited: bool, s: Shared, l: Limits)
    requires s.Valid() && t.phase.Waiting? && Consistent(t, l)
    ensures Consistent(OutcomeStep(t, o, limited, s, l).0, l)
    ensures OutcomeStep(t, o, limited, s, l).0.outcomes == t.outcomes + [o]
  {
  }

  /**
   * The client hears what the last attempt came to. A reply is passed on with its status, or is a
   * 404 answered 429; a failure that ends the request is answered 502 or 504 by its kind, a
   * surprise 500. Only a request whose pool ran out is answered 503, and then all it heard failed.
   */
  lemma AnswersBefit(t: Ticket, l: Limits)
    requires Consistent(t, l) && t.phase.Answered?
    ensures var answer := t.phase.answer;
            if answer == NoHealthyBackend then
              forall i :: 0 <= i < |t.outcomes| ==> !t.outcomes[i].Reply? && t.outcomes[i] != Unexpected
            else t.outcomes != [] && Befits(answer, t.outcomes[|t.outcomes| - 1])
    ensures forall i, c :: 0 <= i < |t.outcomes| && t.outcomes[i] == Reply(c) ==>
              && i == |t.outcomes| - 1
              && (t.phase.answer == Upstream(c) || (t.phase.answer == TooManyErrors && c == 404))
  {
  }

  // ---- Retry safety ----

  /** The verb is `name`, which is given in capitals, but for the case of its letters. */
  predicate Spells(verb: string, name: string) {
    |verb| == |name| && forall i :: 0 <= i < |name| ==> verb[i] == name[i] || verb[i] as int == name[i] as int + 32
  }

  /** One of the idempotent methods of section 9.2.2 of RFC 9110, in any case. */
  predicate Repeatable(verb: string) {
    || Spells(verb, "GET") || Spells(verb, "HEAD") || Spells(verb, "OPTIONS")
    || Spells(verb, "PUT") || Spells(verb, "DELETE") || Spells(verb, "TRACE")
  }

  lemma SpellsIff(verb: string, name: string)
    requires forall i :: 0 <= i < |name| ==> 'A' <= name[i] <= 'Z'
    ensures Spells(verb, name) <==> UpperCase(verb) == name
  {
    var upper := UpperCase(verb);
    if upper == name {
      forall i | 0 <= i < |name| ensures verb[i] == name[i] || verb[i] as int == name[i] as int + 32 {
        assert upper[i] == Upper(verb[i]);
      }
    }
    if Spells(verb, name) {
      forall i | 0 <= i < |name| ensures upper[i] == name[i] {
        assert upper[i] == Upper(verb[i]);
      }
    }
  }

  lemma IdempotentIff(verb: string)
    ensures Idempotent(verb) <==> Repeatable(verb)
  {
    SpellsIff(verb, "GET");
    SpellsIff(verb, "HEAD");
    SpellsIff(verb, "OPTIONS");
    SpellsIff(verb, "PUT");
    SpellsIff(verb, "DELETE");
    SpellsIff(verb, "TRACE");
    hide Spells, UpperCase;
  }

  /**
   * After a failure with attempts left the request tries again exactly when its method may be
   * repeated or nothing was sent; without attempts left it is answered.
   */
  lemma RetriesIff(t: Ticket, o: Outcome, limited: bool, s: Shared, l: Limits)
    requires s.Valid() && t.phase.Waiting? && !o.Reply? && o != Unexpected
    ensures OutcomeStep(t, o, limited, s, l).0.phase.Choosing?
            <==> t.attempt + 1 < l.maxAttempts && (Repeatable(t.verb) || o == ConnectError || o == ConnectTimeout)
    ensures !OutcomeStep(t, o, limited, s, l).0.phase.Waiting?
  {
    IdempotentIff(t.verb);
    hide Idempotent, Repeatable;
  }

  /**
   * A request whose method may not be repeated reaches a backend at most once: whenever a further
   * server has been tried, the earlier attempt is known to have failed to connect.
   */
  lemma AtMostOnce(t: Ticket, l: Limits, i: nat)
    requires Consistent(t, l) && !Repeatable(t.verb) && i + 1 < |t.tried|
    ensures i < |t.outcomes| && (t.outcomes[i] == ConnectError || t.outcomes[i] == ConnectTimeout)
  {
    IdempotentIff(t.verb);
    hide Idempotent, Repeatable;
  }

  /** Selections exceed retries by one exactly while the last attempt is open, and otherwise match. */
  lemma SelectionsMinusRetries(t: Ticket, l: Limits)
    requires Consistent(t, l)
    ensures |t.tried| - t.attempt == if Open(t) then 1 else 0
    ensures t.phase.Answered? ==>
              (Open(t) <==> t.outcomes != [] && !Failure(t.outcomes[|t.outcomes| - 1]))
  {
  }

  /** How many of its own steps a request can still take. */
  function Rank(t: Ticket, l: Limits): nat {
    match t.phase
    case Choosing => if t.attempt < l.maxAttempts then 2 * (l.maxAttempts - t.attempt) else 1
    case Waiting(_) => if t.attempt < l.maxAttempts then 2 * (l.maxAttempts - t.attempt) - 1 else 1
    case Answered(_) => 0
  }

  lemma OwnStepsCountDown(t: Ticket, o: Outcome, limited: bool, s: Shared, l: Limits)
    requires s.Valid() && Consistent(t, l)
    ensures t.phase.Choosing? ==> Rank(PickStep(t, s, l).0, l) < Rank(t, l)
    ensures t.phase.Waiting? ==> Rank(OutcomeStep(t, o, limited, s, l).0, l) < Rank(t, l)
  {
  }

  // ---- What one step does to the shared state ----

  ghost predicate SoundShared(s: Shared, l: Limits) {
    && s.pool.Sound() && s.pins.Valid()
    && |s.pool.pins.order| <= l.maxSessions && |s.pins.order| <= l.maxAddresses
  }

  /** Selecting changes no membership. The choice is a member, unless an address pin says otherwise. */
  lemma SelectEffect(t: Ticket, s: Shared, l: Limits)
    requires SoundShared(s, l)
    ensures var (backend, s') := SelectFor(t, s, l);
            && SoundShared(s', l) && s'.pool.Members() == s.pool.Members()
            && (t.policy != ByAddress ==> s'.pins == s.pins)
            && (backend.Some? && (t.policy != ByAddress || t.ip !in s.pins.at) ==> backend.value in s.pool.Members())
            && (s.pins.at.Values <= s.pool.Members() ==>
                  && s'.pins.at.Values <= s.pool.Members()
                  && (backend.Some? ==> backend.value in s.pool.Members()))
  {
    match t.policy {
      case BySession => ChooseIsSound(s.pool, Some(t.session), l.maxSessions);
      case ByRoundRobin => ChooseIsSound(s.pool, None, l.maxSessions);
      case ByAddress =>
        ChooseIsSound(s.pool, None, l.maxSessions);
        assert s.pool.Choose(None, l.maxSessions) == s.pool.Advance();
        if t.ip in s.pins.at {
          assert s.pins.at[t.ip] in s.pins.at.Values;
        } else if s.pool.Advance().0.Some? {
          PinValues(s.pins, t.ip, s.pool.Advance().0.value, l.maxAddresses);
        }
    }
  }

  /** The pin that settles a request's selection, if its policy looks at one and there is one. */
  function Pinned(t: Ticket, s: Shared): Option<Server> {
    match t.policy
    case ByRoundRobin => None
    case BySession => s.pool.pins.Get(t.session)
    case ByAddress => s.pins.Get(t.ip)
  }

  /**
   * The three policies. A request with a pin of its policy's kind is sent there, and nothing moves.
   * Any other gets the server due next, if there is one, and the pool turns; the session policy
   * then pins the session, the address policy the address, and nobody pins anything else.
   */
  lemma SelectionIs(t: Ticket, s: Shared, l: Limits)
    requires SoundShared(s, l)
    ensures var (t', s') := PickStep(t, s, l);
            var pinned, rot := Pinned(t, s), s.pool.wheel.Rot();
            if pinned == None && rot == [] then t' == t.(phase := Answered(NoHealthyBackend)) && s' == s
            else
              var server := if pinned.Some? then pinned.value else rot[0];
              && t' == t.(phase := Waiting(server), tried := t.tried + [server])
              && if pinned.Some? then s' == s
                 else
                   && s'.pool.wheel.Rot() == rot[1..] + [rot[0]] && s'.pool.wheel.Items() == s.pool.wheel.Items()
                   && (if t.policy == BySession
                       then GainsPin(s.pool.pins, t.session, server, s'.pool.pins, l.maxSessions)
                       else s'.pool.pins == s.pool.pins)
                   && (if t.policy == ByAddress
                       then GainsPin(s.pins, t.ip, server, s'.pins, l.maxAddresses)
                       else s'.pins == s.pins)
  {
    hide GainsPin, Wheel.Rot, Wheel.Items, Dict.Valid;
    match t.policy {
      case ByRoundRobin => ChooseTurns(s.pool, None, l.maxSessions);
      case BySession => ChooseTurns(s.pool, Some(t.session), l.maxSessions);
      case ByAddress =>
        ChooseTurns(s.pool, None, l.maxSessions);
        if t.ip !in s.pins.at && s.pool.Advance().0.Some? {
          PutGainsPin(s.pins, t.ip, s.pool.Advance().0.value, l.maxAddresses);
        }
    }
  }

  lemma PinValues(pins: Pins, ip: Ip, b: Server, cap: Positive)
    requires pins.Valid() && ip !in pins.at
    ensures PinTo(pins, ip, b, cap).at.Values <= pins.at.Values + {b}
  {
  }

  lemma RemovedValues(pins: Pins, b: Server)
    requires pins.Valid()
    ensures pins.RemoveValue(b).at.Values == pins.at.Values - {b}
    ensures |pins.RemoveValue(b).order| <= |pins.order|
  {
    DroppingElements(pins.order, pins.KeysOf(b));
    var left := pins.RemoveValue(b);
    forall v | v in pins.at.Values - {b} ensures v in left.at.Values {
      var k :| k in pins.at && pins.at[k] == v;
      assert k in left.at && left.at[k] == v;
    }
    forall v | v in left.at.Values ensures v in pins.at.Values {
      var k :| k in left.at && left.at[k] == v;
      assert k in pins.at && pins.at[k] == v;
    }
  }

  /** A tripped backend leaves the pool, the session pins and the address pins, and nothing else leaves. */
  lemma TripEffect(s: Shared, b: Server, l: Limits)
    requires SoundShared(s, l)
    ensures SoundShared(Trip(s, b), l)
    ensures Trip(s, b).pool.Members() == s.pool.Members() - {b}
    ensures Trip(s, b).pins.at.Values == s.pins.at.Values - {b}
    ensures b !in Trip(s, b).pool.pins.at.Values
  {
    DropIsSound(s.pool, b);
    RemovedValues(s.pins, b);
  }

  /** An outcome keeps the pool or takes the tried server out of it; it never adds one. */
  lemma OutcomeEffect(t: Ticket, o: Outcome, limited: bool, s: Shared, l: Limits)
    requires SoundShared(s, l) && t.phase.Waiting?
    ensures var s' := OutcomeStep(t, o, limited, s, l).1;
            && SoundShared(s', l)
            && s'.pool.Members() == (if Failure(o) then s.pool.Members() - {t.phase.server} else s.pool.Members())
            && s'.pins.at.Values == (if Failure(o) then s.pins.at.Values - {t.phase.server} else s.pins.at.Values)
  {
    if Failure(o) {
      TripEffect(s, t.phase.server, l);
    }
  }

  /** One undisturbed turn of the loop. */
  lemma TurnIsConsistent(t: Ticket, w: World, a: Attempt, l: Limits, c: Settings)
    requires SoundShared(w.shared, l) && t.phase.Choosing? && Consistent(t, l)
    ensures var (t', w') := Turn(t, w, a, l, c);
            Consistent(t', l) && SoundShared(w'.shared, l) && !t'.phase.Waiting?
  {
    hide Consistent, Trip, SelectFor, Heard, CountPick, CountOutcome;
    PickIsConsistent(t, w.shared, l);
    SelectEffect(t, w.shared, l);
    var (picked, s) := PickStep(t, w.shared, l);
    if picked.phase.Waiting? {
      var limited := Heard(t, a, w, c).0;
      OutcomeIsConsistent(picked, a.outcome, limited, s, l);
      OutcomeEffect(picked, a.outcome, limited, s, l);
    }
  }

  /** The wrapper's loop, left alone, ends with an answer and a consistent history. */
  lemma {:induction false} FinishIsConsistent(t: Ticket, w: World, script: seq<Attempt>, l: Limits, c: Settings)
    requires SoundShared(w.shared, l) && t.phase.Choosing? && Consistent(t, l)
    requires t.attempt < l.maxAttempts <= |script|
    ensures var (t', w') := Finish(t, w, script, l, c);
            t'.phase.Answered? && Consistent(t', l) && SoundShared(w'.shared, l)
    decreases l.maxAttempts - t.attempt
  {
    var (next, w') := Turn(t, w, script[t.attempt], l, c);
    TurnIsConsistent(t, w, script[t.attempt], l, c);
    if next.phase.Choosing? {
      FinishIsConsistent(next, w', script, l, c);
    }
  }

  // ---- What the counters tell ----

  /** Between two points of one request the counters moved by what the request tried, wrote off and ended with. */
  ghost predicate Accounted(t: Ticket, k: Counts, t': Ticket, k': Counts) {
    && k'.selections - k.selections == |t'.tried| - |t.tried|
    && k'.retries - k.retries == t'.attempt - t.attempt
    && k'.exhausted - k.exhausted == (if t'.phase == Answered(NoHealthyBackend) then 1 else 0)
    && k'.timeouts - k.timeouts == (if t'.phase == Answered(AllFailed(504)) then 1 else 0)
    && k'.requestErrors - k.requestErrors == (if t'.phase == Answered(AllFailed(502)) then 1 else 0)
    && k'.unexpected - k.unexpected == (if t'.phase == Answered(InternalError) then 1 else 0)
  }

  lemma TurnIsAccounted(t: Ticket, w: World, a: Attempt, l: Limits, c: Settings)
    requires w.shared.Valid() && t.phase.Choosing?
    ensures var (t', w') := Turn(t, w, a, l, c);
            && Accounted(t, w.counts, t', w'.counts) && !t'.phase.Waiting?
            && (t'.phase.Choosing? ==> t'.attempt == t.attempt + 1)
  {
    hide SelectFor, Trip, Tracker.Record, SafeToRetry;
  }

  /**
   * Over a whole request, left alone, the selection counter grows by the servers tried, the
   * retry counter by the attempts written off, and exactly one of the counters for exhaustion,
   * timeouts, request errors and surprises by one when the answer is a 503, 504, 502 or 500 of the
   * wrapper's own.
   */
  lemma {:induction false} FinishIsAccounted(t: Ticket, w: World, script: seq<Attempt>, l: Limits, c: Settings)
    requires SoundShared(w.shared, l) && t.phase.Choosing? && Consistent(t, l)
    requires t.attempt < l.maxAttempts <= |script|
    ensures var (t', w') := Finish(t, w, script, l, c); Accounted(t, w.counts, t', w'.counts)
    decreases l.maxAttempts - t.attempt
  {
    hide Turn;
    var (next, w') := Turn(t, w, script[t.attempt], l, c);
    TurnIsAccounted(t, w, script[t.attempt], l, c);
    TurnIsConsistent(t, w, script[t.attempt], l, c);
    if next.phase.Choosing? {
      FinishIsAccounted(next, w', script, l, c);
    }
  }

  // ---- The wrapper's loop follows its script ----

  /** What has been heard since t is what the script says, and only a 404 at the end reached the tracker. */
  ghost predicate Heeds(t: Ticket, w: World, t': Ticket, w': World, script: seq<Attempt>, c: Settings) {
    var n, m := |t.outcomes|, |t'.outcomes|;
    && n <= m <= |script| && t'.outcomes[..n] == t.outcomes
    && (forall i :: n <= i < m ==> t'.outcomes[i] == script[i].outcome)
    && t'.ip == t.ip
    && var recorded := n < m && t'.outcomes[m - 1] == Reply(404);
       var (limited, tracker) := if recorded then w.tracker.Record(c, t.ip, script[m - 1].time) else (false, w.tracker);
       w'.tracker == tracker && (t'.phase == Answered(TooManyErrors) <==> limited)
  }

  lemma TurnHeeds(t: Ticket, w: World, script: seq<Attempt>, l: Limits, c: Settings)
    requires w.shared.Valid() && t.phase.Choosing? && |t.outcomes| == t.attempt < |script|
    ensures var (t', w') := Turn(t, w, script[t.attempt], l, c);
            && Heeds(t, w, t', w', script, c)
            && (t'.phase.Choosing? ==>
                  && w'.tracker == w.tracker && |t'.outcomes| == t'.attempt == t.attempt + 1
                  && t'.outcomes[t.attempt] != Reply(404))
  {
    hide SelectFor, Trip, Tracker.Record, SafeToRetry, CountPick, CountOutcome;
  }

  /**
   * The loop hears the script's outcomes one after the other and stops at its answer. The tracker
   * records at most one 404, the one that ended the request, at the moment it arrived, and the
   * request is answered 429 exactly when that is penalised.
   */
  lemma {:induction false} FinishHeeds(t: Ticket, w: World, script: seq<Attempt>, l: Limits, c: Settings)
    requires SoundShared(w.shared, l) && t.phase.Choosing? && Consistent(t, l)
    requires t.attempt < l.maxAttempts <= |script|
    ensures var (t', w') := Finish(t, w, script, l, c); Heeds(t, w, t', w', script, c)
    decreases l.maxAttempts - t.attempt
  {
    var (next, w') := Turn(t, w, script[t.attempt], l, c);
    TurnHeeds(t, w, script, l, c);
    TurnIsConsistent(t, w, script[t.attempt], l, c);
    if next.phase.Choosing? {
      FinishHeeds(next, w', script, l, c);
      var (t', w'') := Finish(next, w', script, l, c);
      hide Turn, Consistent, Heeds;
      HeedsOn(t, w, next, w', t', w'', script, c);
    }
  }

  lemma HeedsOn(t: Ticket, w: World, next: Ticket, w': World, t': Ticket, w'': World, script: seq<Attempt>, c: Settings)
    requires Heeds(t, w, next, w', script, c) && w'.tracker == w.tracker
    requires |next.outcomes| == |t.outcomes| + 1 && next.outcomes[|t.outcomes|] != Reply(404)
    requires Heeds(next, w', t', w'', script, c)
    ensures Heeds(t, w, t', w'', script, c)
  {
    hide Tracker.Record;
    var n, k, m := |t.outcomes|, |next.outcomes|, |t'.outcomes|;
    assert t'.outcomes[..k] == next.outcomes;
    assert t'.outcomes[..n] == t'.outcomes[..k][..n];
    forall i | n <= i < m ensures t'.outcomes[i] == script[i].outcome {
      if i < k {
        assert t'.outcomes[i] == t'.outcomes[..k][i];
      }
    }
  }
}
