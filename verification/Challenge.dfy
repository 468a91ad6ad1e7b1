/** The challenge handler as it runs, with the conversations that wait for a challenge. */
module Challenge {
  import opened Wrappers
  import opened Lists
  import ChallengeRules

  datatype Registered = Registered(retryAt: Option<int>, token: Option<string>, silent: bool)

  /** `shouldStartQueue`: without a time the user has to solve a captcha first. */
  predicate ShouldStartQueue(r: Registered, now: int) { r.retryAt.Some? && r.retryAt.value <= now }

  predicate Truthy(token: Option<string>) { token.Some? && token.value != "" }

  /** Those of the registered conversations whose queue `#startAllQueues` starts. */
  function Due(registered: map<string, Registered>, force: bool, now: int): set<string> {
    set c | c in registered && (force || ShouldStartQueue(registered[c], now))
  }

  class ChallengeHandler {
    var solving: int
    var challengeToken: Option<string>
    var nextSeq: nat
    var isOnline: bool
    var rateLimitRetryAt: Option<int>
    var responseHandlers: map<nat, ChallengeRules.Handler>
    var registered: map<string, Registered>
    var stored: set<string>
    var startTimers: map<string, int>
    var pendingStarts: set<string>
    /** The calls of `#solve` so far, what they sent, which requests were answered and which queues started. */
    var solves: seq<ChallengeRules.Solve>
    var sent: seq<ChallengeRules.Sent>
    var answered: map<nat, string>
    var started: seq<string>

    function Machine(): ChallengeRules.Machine
      reads this`solving, this`nextSeq, this`challengeToken, this`responseHandlers, this`answered,
            this`solves, this`sent
    {
      ChallengeRules.Machine(solving, nextSeq, challengeToken, responseHandlers, answered, solves, sent)
    }

    /** Timers and pending starts are for registered conversations, and storage lists exactly those. */
    ghost predicate Waiting()
      reads this`registered, this`startTimers, this`pendingStarts, this`stored
    {
      startTimers.Keys <= registered.Keys && pendingStarts <= registered.Keys && stored == registered.Keys
    }

    /** The captcha machinery is in a state that some interleaving of its steps leads to. */
    ghost predicate Consistent()
      reads this`solving, this`nextSeq, this`challengeToken, this`responseHandlers, this`answered,
            this`solves, this`sent
    {
      ChallengeRules.Reachable(Machine())
    }

    ghost predicate Valid()
      reads this
    {
      Consistent() && Waiting()
    }

    constructor ()
      ensures Valid() && Machine() == ChallengeRules.Idle && registered == map[]
    {
      solving, challengeToken, nextSeq, isOnline, rateLimitRetryAt := 0, None, 0, false, None;
      responseHandlers, registered, stored, startTimers, pendingStarts := map[], map[], {}, map[], {};
      solves, sent, answered, started := [], [], map[], [];
      ChallengeRules.IdleReachable();
    }

    // -------------------------------------------------------------- captchas

    /** `#solve` up to its first await. */
    method Solve(token: string)
      requires Consistent()
      modifies this`solving, this`challengeToken, this`nextSeq, this`responseHandlers, this`solves
      ensures Consistent() && Machine() == ChallengeRules.StartSolve(old(Machine()), token)
    {
      ChallengeRules.StepReachable(Machine(), ChallengeRules.Solves(token));
      solving := solving + 1;
      challengeToken := Some(token);
      var s := nextSeq;
      nextSeq := nextSeq + 1;
      responseHandlers := responseHandlers[s := ChallengeRules.ForSolve(|solves|)];
      solves := solves + [ChallengeRules.Solve(token, s, ChallengeRules.Waiting)];
    }

    /** `requestCaptcha` from elsewhere in the application. */
    method RequestCaptcha() returns (s: nat)
      requires Consistent()
      modifies this`nextSeq, this`responseHandlers
      ensures Consistent() && Machine() == ChallengeRules.RequestCaptcha(old(Machine())) && s == old(nextSeq)
    {
      ChallengeRules.StepReachable(Machine(), ChallengeRules.Requests);
      s := nextSeq;
      nextSeq := nextSeq + 1;
      responseHandlers := responseHandlers[s := ChallengeRules.Direct];
    }

    method OnResponse(s: nat, captcha: string)
      requires Consistent()
      modifies this`responseHandlers, this`answered, this`solves
      ensures Consistent() && Machine() == ChallengeRules.Respond(old(Machine()), s, captcha)
    {
      ChallengeRules.StepReachable(Machine(), ChallengeRules.Responds(s, captcha));
      if s !in responseHandlers { return; }
      var handler := responseHandlers[s];
      responseHandlers := responseHandlers - {s};
      answered := answered[s := captcha];
      if handler.ForSolve? && handler.solve < |solves| {
        solves := solves[handler.solve := solves[handler.solve].(phase := ChallengeRules.Answered(captcha))];
      }
    }

    /** `#solve` once its captcha is there: true if it sends the token, false if another call did. */
    method ResumeSolve(i: nat) returns (sends: bool)
      requires Consistent() && ChallengeRules.CanResume(Machine(), i)
      modifies this`solving, this`challengeToken, this`solves, this`sent
      ensures Consistent() && Machine() == ChallengeRules.Resume(old(Machine()), i)
      ensures sends == old(challengeToken).Some?
    {
      ChallengeRules.StepReachable(Machine(), ChallengeRules.Resumes(i));
      if challengeToken.None? {
        solving := solving - 1;
        solves := solves[i := solves[i].(phase := ChallengeRules.Done)];
        return false;
      }
      var lastToken := challengeToken.value;
      challengeToken := None;
      sent := sent + [ChallengeRules.Sent(i, |solves| - 1, lastToken, solves[i].phase.captcha)];
      solves := solves[i := solves[i].(phase := ChallengeRules.Sending)];
      return true;
    }

    /** One call of `#solve` is over. */
    method EndSolve(i: nat)
      requires Consistent() && ChallengeRules.CanFinish(Machine(), i)
      modifies this`solving, this`solves
      ensures Consistent() && Machine() == ChallengeRules.Finish(old(Machine()), i)
    {
      ChallengeRules.StepReachable(Machine(), ChallengeRules.Finishes(i));
      solving := solving - 1;
      solves := solves[i := solves[i].(phase := ChallengeRules.Done)];
    }

    /**
     The end of `#solve`: an error makes everybody wait and starts no queue, success starts the queue of everybody who
     was registered once, or notes them all while offline.
     */
    method FinishSolve(i: nat, failedRetryAfter: Option<int>, now: int) returns (ghost order: seq<string>)
      requires Valid() && ChallengeRules.CanFinish(Machine(), i)
      modifies this
      ensures Valid() && Machine() == ChallengeRules.Finish(old(Machine()), i)
      ensures
        failedRetryAfter.Some? ==>
          && rateLimitRetryAt == Some(now + failedRetryAfter.value)
          && registered.Keys == old(registered.Keys) && startTimers.Keys == registered.Keys
          && (forall c :: c in registered ==>
                registered[c] == old(registered)[c].(retryAt := rateLimitRetryAt)
                && startTimers[c] == rateLimitRetryAt.value)
          && order == [] && pendingStarts == old(pendingStarts)
      ensures failedRetryAfter.None? && old(isOnline) ==>
        && registered == map[] && startTimers == map[] && pendingStarts == {}
        && NoDuplicates(order) && Elements(order) == old(registered.Keys)
      ensures failedRetryAfter.None? && !old(isOnline) ==>
        && registered == old(registered) && pendingStarts == registered.Keys && startTimers == old(startTimers)
        && order == []
      ensures failedRetryAfter.None? ==> rateLimitRetryAt == old(rateLimitRetryAt)
      ensures started == old(started) + order && isOnline == old(isOnline)
    {
      order := [];
      if failedRetryAfter.Some? {
        ForceWaitOnAll(now + failedRetryAfter.value);
        EndSolve(i);
        return;
      }
      EndSolve(i);
      order := StartEverybody(now);
    }

    /** `#startAllQueues` with force; offline the order of starts is empty. */
    method StartEverybody(now: int) returns (ghost order: seq<string>)
      requires Waiting()
      modifies this`registered, this`pendingStarts, this`startTimers, this`stored, this`started
      ensures Waiting() && started == old(started) + order
      ensures
        isOnline ==>
          && registered == map[] && startTimers == map[] && pendingStarts == {}
          && NoDuplicates(order) && Elements(order) == old(registered.Keys)
      ensures
        !isOnline ==>
          && registered == old(registered) && pendingStarts == registered.Keys && startTimers == old(startTimers)
          && order == []
    {
      assert Due(registered, true, now) == registered.Keys;
      order := StartAllQueues(true, now);
      if !isOnline { order := []; }
    }

    // -------------------------------------------------------------- waiting conversations

    /** `forceWaitOnAll` with the timers `scheduleRetry` sets. */
    method ForceWaitOnAll(retryAt: int)
      requires Waiting()
      modifies this`rateLimitRetryAt, this`registered, this`startTimers
      ensures Waiting() && rateLimitRetryAt == Some(retryAt) && registered.Keys == old(registered.Keys)
      ensures startTimers.Keys == registered.Keys
      ensures forall c :: c in registered ==>
                registered[c] == old(registered)[c].(retryAt := Some(retryAt)) && startTimers[c] == retryAt
    {
      rateLimitRetryAt := Some(retryAt);
      var todo := registered.Keys;
      while todo != {}
        invariant todo <= registered.Keys && registered.Keys == old(registered.Keys)
        invariant startTimers.Keys <= registered.Keys && rateLimitRetryAt == Some(retryAt)
        invariant forall c :: c in todo ==> registered[c] == old(registered)[c]
        invariant forall c :: c in registered && c !in todo ==>
                    && registered[c] == old(registered)[c].(retryAt := Some(retryAt))
                    && c in startTimers && startTimers[c] == retryAt
        decreases todo
      {
        var c :| c in todo;
        registered := registered[c := registered[c].(retryAt := Some(retryAt))];
        startTimers := startTimers[c := retryAt];
        todo := todo - {c};
      }
      assert startTimers.Keys == registered.Keys;
    }

    method Unregister(c: string)
      modifies this`registered, this`pendingStarts, this`startTimers, this`stored
      ensures registered == old(registered) - {c} && pendingStarts == old(pendingStarts) - {c}
      ensures startTimers == old(startTimers) - {c} && stored == registered.Keys
    {
      registered := registered - {c};
      pendingStarts := pendingStarts - {c};
      startTimers := startTimers - {c};
      stored := registered.Keys;
    }

    /** `#startQueue`: while offline the start is only noted. */
    method StartQueue(c: string)
      requires Waiting() && (!isOnline ==> c in registered)
      modifies this`registered, this`pendingStarts, this`startTimers, this`stored, this`started
      ensures Waiting()
      ensures
        if old(isOnline)
        then registered == old(registered) - {c} && pendingStarts == old(pendingStarts) - {c}
             && startTimers == old(startTimers) - {c} && started == old(started) + [c]
        else registered == old(registered) && pendingStarts == old(pendingStarts) + {c}
             && startTimers == old(startTimers) && started == old(started)
    {
      if !isOnline {
        pendingStarts := pendingStarts + {c};
        return;
      }
      Unregister(c);
      started := started + [c];
    }

    /** `#startAllQueues`: every due conversation once, and no other. */
    method StartAllQueues(force: bool, now: int) returns (ghost order: seq<string>)
      requires Waiting()
      modifies this`registered, this`pendingStarts, this`startTimers, this`stored, this`started
      ensures Waiting() && NoDuplicates(order) && Elements(order) == Due(old(registered), force, now)
      ensures
        if old(isOnline)
        then registered == old(registered) - Elements(order) && pendingStarts == old(pendingStarts) - Elements(order)
             && startTimers == old(startTimers) - Elements(order) && started == old(started) + order
        else registered == old(registered) && pendingStarts == old(pendingStarts) + Elements(order)
             && startTimers == old(startTimers) && started == old(started)
    {
      var todo := Due(registered, force, now);
      ghost var due := todo;
      order := [];
      while todo != {}
        invariant todo !! Elements(order) && todo + Elements(order) == due
        invariant Waiting() && NoDuplicates(order) && (forall c <- todo :: c in registered)
        invariant
          if isOnline
          then registered == old(registered) - Elements(order) && pendingStarts == old(pendingStarts) - Elements(order)
               && startTimers == old(startTimers) - Elements(order) && started == old(started) + order
          else registered == old(registered) && pendingStarts == old(pendingStarts) + Elements(order)
               && startTimers == old(startTimers) && started == old(started)
        decreases todo
      {
        var c :| c in todo;
        StartQueue(c);
        assert Elements(order + [c]) == Elements(order) + {c};
        todo, order := todo - {c}, order + [c];
      }
    }

    /** `register`; `wantsCaptcha` is false when the server asked for something else. */
    method Register(c: string, challenge: Registered, wantsCaptcha: bool, now: int)
      requires Valid()
      modifies this
      ensures Valid() && rateLimitRetryAt == old(rateLimitRetryAt) && isOnline == old(isOnline)
      ensures
        c in old(registered) ==>
          && registered == old(registered) && started == old(started) && startTimers == old(startTimers)
          && pendingStarts == old(pendingStarts) && Machine() == old(Machine())
      ensures
        c !in old(registered) && challenge.retryAt.Some? && challenge.retryAt.value <= now ==>
          && Machine() == old(Machine()) && startTimers == old(startTimers)
          && (isOnline ==>
                registered == old(registered) && started == old(started) + [c] && pendingStarts == old(pendingStarts))
          && (!isOnline ==>
                registered == old(registered)[c := challenge] && started == old(started)
                && pendingStarts == old(pendingStarts) + {c})
      ensures
        c !in old(registered) && (challenge.retryAt.None? || challenge.retryAt.value > now) ==>
          && registered == old(registered)[c := challenge] && started == old(started)
          && pendingStarts == old(pendingStarts)
          && startTimers == (if rateLimitRetryAt.Some? then old(startTimers)[c := rateLimitRetryAt.value]
                             else if challenge.retryAt.Some? then old(startTimers)[c := challenge.retryAt.value]
                             else old(startTimers))
          && Machine() == if wantsCaptcha && !challenge.silent && challenge.token.Some? && challenge.token.value != ""
                          then ChallengeRules.StartSolve(old(Machine()), challenge.token.value) else old(Machine())
    {
      if c in registered { return; }
      var waits := Enrol(c, challenge, now);
      Ask(challenge, waits && wantsCaptcha);
    }

    /** The end of `register`: a captcha, if there is a token for one and the user may be asked. */
    method Ask(challenge: Registered, wantsCaptcha: bool)
      requires Consistent()
      modifies this`solving, this`challengeToken, this`nextSeq, this`responseHandlers, this`solves
      ensures Consistent()
      ensures
        Machine() == if wantsCaptcha && Truthy(challenge.token) && !challenge.silent
                     then ChallengeRules.StartSolve(old(Machine()), challenge.token.value) else old(Machine())
    {
      if !wantsCaptcha || !Truthy(challenge.token) || challenge.silent { return; }
      Solve(challenge.token.value);
    }

    /** `register` up to the captcha: true if the conversation has to wait. */
    method Enrol(c: string, challenge: Registered, now: int) returns (waits: bool)
      requires Waiting() && c !in registered
      modifies this`registered, this`pendingStarts, this`startTimers, this`stored, this`started
      ensures Waiting() && waits == !ShouldStartQueue(challenge, now)
      ensures
        ShouldStartQueue(challenge, now) ==>
          && startTimers == old(startTimers)
          && (isOnline ==>
                registered == old(registered) && started == old(started) + [c] && pendingStarts == old(pendingStarts))
          && (!isOnline ==>
                registered == old(registered)[c := challenge] && started == old(started)
                && pendingStarts == old(pendingStarts) + {c})
      ensures
        !ShouldStartQueue(challenge, now) ==>
          && registered == old(registered)[c := challenge] && started == old(started)
          && pendingStarts == old(pendingStarts)
          && startTimers == if rateLimitRetryAt.Some? then old(startTimers)[c := rateLimitRetryAt.value]
                            else if challenge.retryAt.Some? then old(startTimers)[c := challenge.retryAt.value]
                            else old(startTimers)
    {
      registered := registered[c := challenge];
      stored := registered.Keys;
      if ShouldStartQueue(challenge, now) {
        StartQueue(c);
        assert old(startTimers) - {c} == old(startTimers) && old(pendingStarts) - {c} == old(pendingStarts);
        assert isOnline ==> registered == old(registered);
        return false;
      }
      if rateLimitRetryAt.Some? {
        startTimers := startTimers[c := rateLimitRetryAt.value];
      } else if challenge.retryAt.Some? {
        startTimers := startTimers[c := challenge.retryAt.value];
      }
      waits := true;
    }

    /** `maybeSolve`: only with nothing in flight and no rate limit. */
    method MaybeSolve(c: string)
      requires Valid()
      modifies this`solving, this`challengeToken, this`nextSeq, this`responseHandlers, this`solves
      ensures Valid()
      ensures
        Machine() == if c in registered && old(solving) == 0 && rateLimitRetryAt.None? && Truthy(registered[c].token)
                     then ChallengeRules.StartSolve(old(Machine()), registered[c].token.value) else old(Machine())
    {
      ChallengeRules.ReachableCounts(Machine());
      if c !in registered || solving > 0 || rateLimitRetryAt.Some? { return; }
      if Truthy(registered[c].token) { Solve(registered[c].token.value); }
    }

    /** A start timer fires and lifts the rate limit. */
    method TimerFires(c: string)
      requires Valid() && c in startTimers
      modifies this
      ensures Valid() && Machine() == old(Machine()) && rateLimitRetryAt.None? && startTimers == old(startTimers) - {c}
      ensures old(isOnline) ==>
        && registered == old(registered) - {c} && pendingStarts == old(pendingStarts) - {c}
        && started == old(started) + [c]
      ensures !old(isOnline) ==>
        registered == old(registered) && pendingStarts == old(pendingStarts) + {c} && started == old(started)
    {
      startTimers := startTimers - {c};
      rateLimitRetryAt := None;
      StartQueue(c);
    }

    /** `onOnline`: what matured is started, what was noted while offline is forgotten. */
    method OnOnline(now: int) returns (ghost order: seq<string>)
      requires Valid()
      modifies this
      ensures Valid() && Machine() == old(Machine()) && isOnline && pendingStarts == {}
      ensures NoDuplicates(order)
      ensures
        forall c ::
          c in order
          <==> c in old(registered) && old(registered)[c].retryAt.Some? && old(registered)[c].retryAt.value <= now
      ensures registered == old(registered) - Elements(order) && started == old(started) + order
      ensures startTimers == old(startTimers) - Elements(order) && rateLimitRetryAt == old(rateLimitRetryAt)
    {
      isOnline := true;
      pendingStarts := {};
      order := StartAllQueues(false, now);
      assert forall c :: c in order <==> c in Elements(order);
    }
  }
}
