/**
 The captcha machinery of ts/challenge.dom.ts: any number of `#solve` calls in flight share one
 pending token. Their steps between awaits interleave freely.
 */
module ChallengeRules {
  import opened Wrappers
  import opened Lists

  /** Where a call of `#solve` stands: its captcha requested, its captcha here, the response on its way, or over. */
  datatype Phase = Waiting | Answered(captcha: string) | Sending | Done

  /** `seqNo` is the number of the request for its captcha. */
  datatype Solve = Solve(token: string, seqNo: nat, phase: Phase)

  /** Who waits for a response: a solve, or a caller of `requestCaptcha` outside. */
  datatype Handler = ForSolve(solve: nat) | Direct

  /** A response sent to the server by one solve; every solve assigns the token once, so `assignment` is its number. */
  datatype Sent = Sent(sender: nat, assignment: nat, token: string, captcha: string)

  datatype Machine = Machine(
    solving: int,
    nextSeq: nat,
    challengeToken: Option<string>,
    handlers: map<nat, Handler>,
    answered: map<nat, string>,
    solves: seq<Solve>,
    sent: seq<Sent>)

  const Idle := Machine(0, 0, None, map[], map[], [], [])

  /** `#solve` up to its first await. */
  function StartSolve(m: Machine, token: string): Machine {
    m.(solving := m.solving + 1,
       nextSeq := m.nextSeq + 1,
       challengeToken := Some(token),
       handlers := m.handlers[m.nextSeq := ForSolve(|m.solves|)],
       solves := m.solves + [Solve(token, m.nextSeq, Waiting)])
  }

  /** `requestCaptcha` called from elsewhere. */
  function RequestCaptcha(m: Machine): Machine {
    m.(nextSeq := m.nextSeq + 1, handlers := m.handlers[m.nextSeq := Direct])
  }

  function WithPhase(m: Machine, i: nat, p: Phase): Machine
    requires i < |m.solves|
  {
    m.(solves := m.solves[i := m.solves[i].(phase := p)])
  }

  /** `onResponse`: a number nobody waits for is ignored. */
  function Respond(m: Machine, s: nat, captcha: string): Machine {
    if s !in m.handlers then m
    else
      var r := m.(handlers := m.handlers - {s}, answered := m.answered[s := captcha]);
      match m.handlers[s]
      case Direct => r
      case ForSolve(i) => if i < |m.solves| then WithPhase(r, i, Answered(captcha)) else r
  }

  predicate CanResume(m: Machine, i: nat) { i < |m.solves| && m.solves[i].phase.Answered? }

  /** `#solve` after its captcha came: it takes the token, if no other call has. */
  function Resume(m: Machine, i: nat): Machine
    requires CanResume(m, i)
  {
    if m.challengeToken.None? then WithPhase(m, i, Done).(solving := m.solving - 1)
    else
      WithPhase(m, i, Sending).(
        challengeToken := None,
        sent := m.sent + [Sent(i, |m.solves| - 1, m.challengeToken.value, m.solves[i].phase.captcha)])
  }

  predicate CanFinish(m: Machine, i: nat) { i < |m.solves| && m.solves[i].phase.Sending? }

  /** The server answered, one way or the other. */
  function Finish(m: Machine, i: nat): Machine
    requires CanFinish(m, i)
  {
    WithPhase(m, i, Done).(solving := m.solving - 1)
  }

  // ---------------------------------------------------------------- the invariant

  function Unfinished(solves: seq<Solve>): nat {
    if solves == [] then 0
    else Unfinished(solves[..|solves| - 1]) + if solves[|solves| - 1].phase.Done? then 0 else 1
  }

  function Assignments(sent: seq<Sent>): seq<nat> { seq(|sent|, i requires 0 <= i < |sent| => sent[i].assignment) }

  /** Response handlers are exactly the requests without an answer. */
  ghost predicate HandlersExact(m: Machine) {
    && m.handlers.Keys !! m.answered.Keys
    && (forall s: nat :: s in m.handlers || s in m.answered <==> s < m.nextSeq)
    && (forall s :: s in m.handlers && m.handlers[s].ForSolve? ==>
          var i := m.handlers[s].solve;
          i < |m.solves| && m.solves[i].seqNo == s && m.solves[i].phase.Waiting?)
    && (forall i :: 0 <= i < |m.solves| && m.solves[i].phase.Waiting? ==>
          m.solves[i].seqNo in m.handlers && m.handlers[m.solves[i].seqNo] == ForSolve(i))
  }

  predicate AnsweredWith(m: Machine, i: nat, captcha: string) {
    i < |m.solves| && m.solves[i].seqNo in m.answered && m.answered[m.solves[i].seqNo] == captcha
  }

  /** Every call sends at most once, and with the captcha that was the answer to its own request. */
  ghost predicate CaptchasOwn(m: Machine) {
    && (forall i: nat :: i < |m.solves| && m.solves[i].phase.Answered? ==>
          AnsweredWith(m, i, m.solves[i].phase.captcha))
    && (forall i :: 0 <= i < |m.sent| ==>
          AnsweredWith(m, m.sent[i].sender, m.sent[i].captcha)
          && (m.solves[m.sent[i].sender].phase.Sending? || m.solves[m.sent[i].sender].phase.Done?))
    && (forall i, j :: 0 <= i < j < |m.sent| ==> m.sent[i].sender != m.sent[j].sender)
  }

  /** No assignment is sent twice, and the last one is waiting to be sent or was. */
  ghost predicate TokensSent(m: Machine) {
    && NoDuplicates(Assignments(m.sent))
    && (forall i :: 0 <= i < |m.sent| ==>
          m.sent[i].assignment < |m.solves| && m.sent[i].token == m.solves[m.sent[i].assignment].token)
    && (if m.challengeToken.None? then m.solves != [] ==> |m.solves| - 1 in Assignments(m.sent)
        else
          && m.solves != [] && |m.solves| - 1 !in Assignments(m.sent)
          && var last := m.solves[|m.solves| - 1];
             m.challengeToken == Some(last.token) && (last.phase.Waiting? || last.phase.Answered?))
  }

  ghost predicate Inv(m: Machine) {
    m.solving == Unfinished(m.solves) && HandlersExact(m) && TokensSent(m) && CaptchasOwn(m)
  }

  lemma IdleInv()
    ensures Inv(Idle)
  {}

  lemma {:induction false} UnfinishedAt(solves: seq<Solve>, i: nat, x: Solve)
    requires i < |solves|
    ensures
      var gone := if solves[i].phase.Done? then 0 else 1;
      var come := if x.phase.Done? then 0 else 1;
      Unfinished(solves[i := x]) == Unfinished(solves) - gone + come
  {
    var n := |solves| - 1;
    if i < n {
      UnfinishedAt(solves[..n], i, x);
      assert solves[i := x][..n] == solves[..n][i := x];
    } else {
      assert solves[i := x][..n] == solves[..n];
    }
  }

  lemma AssignmentsPlus(sent: seq<Sent>, x: Sent)
    ensures Assignments(sent + [x]) == Assignments(sent) + [x.assignment]
  {}

  // ---------------------------------------------------------------- a solve starts

  lemma StartHandlers(m: Machine, token: string)
    requires HandlersExact(m)
    ensures HandlersExact(StartSolve(m, token))
  {}

  lemma StartTokens(m: Machine, token: string)
    requires TokensSent(m)
    ensures TokensSent(StartSolve(m, token))
  {}

  lemma StartCaptchas(m: Machine, token: string)
    requires CaptchasOwn(m)
    ensures CaptchasOwn(StartSolve(m, token))
  {}

  lemma StartSolveKeeps(m: Machine, token: string)
    requires Inv(m)
    ensures Inv(StartSolve(m, token))
  {
    var r := StartSolve(m, token);
    StartHandlers(m, token);
    StartTokens(m, token);
    StartCaptchas(m, token);
    assert r.solves[..|m.solves|] == m.solves;
  }

  lemma RequestKeeps(m: Machine)
    requires Inv(m)
    ensures Inv(RequestCaptcha(m))
  {}

  // ---------------------------------------------------------------- a response comes

  lemma RespondHandlers(m: Machine, s: nat, captcha: string)
    requires HandlersExact(m) && s in m.handlers
    ensures HandlersExact(Respond(m, s, captcha))
  {}

  lemma RespondTokens(m: Machine, s: nat, captcha: string)
    requires TokensSent(m) && HandlersExact(m) && s in m.handlers
    ensures TokensSent(Respond(m, s, captcha))
  {}

  lemma RespondCaptchas(m: Machine, s: nat, captcha: string)
    requires CaptchasOwn(m) && HandlersExact(m) && s in m.handlers
    ensures CaptchasOwn(Respond(m, s, captcha))
  {}

  lemma RespondKeeps(m: Machine, s: nat, captcha: string)
    requires Inv(m)
    ensures Inv(Respond(m, s, captcha))
  {
    if s in m.handlers {
      RespondHandlers(m, s, captcha);
      RespondTokens(m, s, captcha);
      RespondCaptchas(m, s, captcha);
      if m.handlers[s].ForSolve? {
        var i := m.handlers[s].solve;
        UnfinishedAt(m.solves, i, m.solves[i].(phase := Answered(captcha)));
      }
    }
  }

  // ---------------------------------------------------------------- a solve goes on or ends

  lemma ResumeHandlers(m: Machine, i: nat)
    requires HandlersExact(m) && CanResume(m, i)
    ensures HandlersExact(Resume(m, i))
  {}

  lemma ResumeTokens(m: Machine, i: nat)
    requires TokensSent(m) && CanResume(m, i)
    ensures TokensSent(Resume(m, i))
  {
    if m.challengeToken.Some? {
      var r := Resume(m, i);
      AssignmentsPlus(m.sent, r.sent[|m.sent|]);
      var a := Assignments(r.sent);
      assert a == Assignments(m.sent) + [|m.solves| - 1];
      assert a[|m.sent|] == |m.solves| - 1;
    }
  }

  lemma ResumeCaptchas(m: Machine, i: nat)
    requires CaptchasOwn(m) && CanResume(m, i)
    ensures CaptchasOwn(Resume(m, i))
  {}

  lemma ResumeKeeps(m: Machine, i: nat)
    requires Inv(m) && CanResume(m, i)
    ensures Inv(Resume(m, i))
  {
    ResumeHandlers(m, i);
    ResumeTokens(m, i);
    ResumeCaptchas(m, i);
    UnfinishedAt(m.solves, i, m.solves[i].(phase := Resume(m, i).solves[i].phase));
  }

  lemma FinishKeeps(m: Machine, i: nat)
    requires Inv(m) && CanFinish(m, i)
    ensures Inv(Finish(m, i))
  {
    UnfinishedAt(m.solves, i, m.solves[i].(phase := Done));
  }

  // ---------------------------------------------------------------- runs

  datatype Event =
    | Solves(token: string)
    | Requests
    | Responds(seqNo: nat, captcha: string)
    | Resumes(i: nat)
    | Finishes(i: nat)

  predicate Possible(m: Machine, e: Event) {
    match e
    case Resumes(i) => CanResume(m, i)
    case Finishes(i) => CanFinish(m, i)
    case _ => true
  }

  function Step(m: Machine, e: Event): Machine
    requires Possible(m, e)
  {
    match e
    case Solves(token) => StartSolve(m, token)
    case Requests => RequestCaptcha(m)
    case Responds(s, captcha) => Respond(m, s, captcha)
    case Resumes(i) => Resume(m, i)
    case Finishes(i) => Finish(m, i)
  }

  predicate Runs(m: Machine, es: seq<Event>, end: Machine)
    decreases |es|
  {
    if es == [] then end == m else Possible(m, es[0]) && Runs(Step(m, es[0]), es[1..], end)
  }

  lemma StepKeeps(m: Machine, e: Event)
    requires Inv(m) && Possible(m, e)
    ensures Inv(Step(m, e))
  {
    match e
    case Solves(token) => StartSolveKeeps(m, token);
    case Requests => RequestKeeps(m);
    case Responds(s, captcha) => RespondKeeps(m, s, captcha);
    case Resumes(i) => ResumeKeeps(m, i);
    case Finishes(i) => FinishKeeps(m, i);
  }

  lemma {:induction false} RunKeeps(m: Machine, es: seq<Event>, end: Machine)
    requires Inv(m) && Runs(m, es, end)
    ensures Inv(end)
    decreases |es|
  {
    if es != [] {
      StepKeeps(m, es[0]);
      RunKeeps(Step(m, es[0]), es[1..], end);
    }
  }

  lemma {:induction false} RunPlus(m: Machine, es: seq<Event>, end: Machine, e: Event)
    requires Runs(m, es, end) && Possible(end, e)
    ensures Runs(m, es + [e], Step(end, e))
    decreases |es|
  {
    if es == [] {
      assert [e][1..] == [];
    } else {
      assert (es + [e])[1..] == es[1..] + [e];
      RunPlus(Step(m, es[0]), es[1..], end, e);
    }
  }

  /** What some interleaving leads to. */
  ghost predicate Reachable(m: Machine) { exists es :: Runs(Idle, es, m) }

  lemma IdleReachable()
    ensures Reachable(Idle)
  {
    assert Runs(Idle, [], Idle);
  }

  lemma StepReachable(m: Machine, e: Event)
    requires Reachable(m) && Possible(m, e)
    ensures Reachable(Step(m, e))
  {
    var es :| Runs(Idle, es, m);
    RunPlus(Idle, es, m, e);
  }

  lemma ReachableCounts(m: Machine)
    requires Reachable(m)
    ensures m.solving == Unfinished(m.solves)
  {
    var es :| Runs(Idle, es, m);
    IdleInv();
    RunKeeps(Idle, es, m);
  }

  lemma {:induction false} NoneUnfinished(solves: seq<Solve>, i: nat)
    requires Unfinished(solves) == 0 && i < |solves|
    ensures solves[i].phase.Done?
  {
    if i < |solves| - 1 { NoneUnfinished(solves[..|solves| - 1], i); }
  }

  ghost predicate Responded(es: seq<Event>, s: nat, captcha: string) {
    exists k :: 0 <= k < |es| && es[k] == Responds(s, captcha)
  }

  /** What counts as the answer to a request is a response that came with its number. */
  lemma {:induction false} AnswersCame(m: Machine, es: seq<Event>, end: Machine, s: nat)
    requires Runs(m, es, end) && s in end.answered
    ensures (s in m.answered && m.answered[s] == end.answered[s]) || Responded(es, s, end.answered[s])
    decreases |es|
  {
    if es != [] {
      AnswersCame(Step(m, es[0]), es[1..], end, s);
      if Responded(es[1..], s, end.answered[s]) {
        var k :| 0 <= k < |es| - 1 && es[1..][k] == Responds(s, end.answered[s]);
        assert es[k + 1] == Responds(s, end.answered[s]);
      } else if !(s in m.answered && m.answered[s] == end.answered[s]) {
        assert es[0] == Responds(s, end.answered[s]);
      }
    }
  }

  /** In every run each call sends at most once, and the captcha it sends came as a response to its own request. */
  lemma CaptchaIsOwnAnswer(es: seq<Event>, end: Machine)
    requires Runs(Idle, es, end)
    ensures
      forall i :: 0 <= i < |end.sent| ==>
        && end.sent[i].sender < |end.solves|
        && Responded(es, end.solves[end.sent[i].sender].seqNo, end.sent[i].captcha)
    ensures forall i, j :: 0 <= i < j < |end.sent| ==> end.sent[i].sender != end.sent[j].sender
  {
    IdleInv();
    RunKeeps(Idle, es, end);
    forall i | 0 <= i < |end.sent|
      ensures end.sent[i].sender < |end.solves|
      ensures Responded(es, end.solves[end.sent[i].sender].seqNo, end.sent[i].captcha)
    {
      assert AnsweredWith(end, end.sent[i].sender, end.sent[i].captcha);
      AnswersCame(Idle, es, end, end.solves[end.sent[i].sender].seqNo);
    }
  }

  /**
   In every run the counter is the number of calls in flight and no assignment of the token is
   sent twice; and once the counter is back at zero the newest token has been sent.
   */
  lemma TokenSentOnce(es: seq<Event>, end: Machine)
    requires Runs(Idle, es, end)
    ensures end.solving == Unfinished(end.solves) && NoDuplicates(Assignments(end.sent))
    ensures forall s: nat :: s in end.handlers <==> s < end.nextSeq && s !in end.answered
    ensures
      end.solving == 0 ==>
        end.challengeToken.None? && (end.solves != [] ==> |end.solves| - 1 in Assignments(end.sent))
  {
    IdleInv();
    RunKeeps(Idle, es, end);
    if end.solving == 0 && end.challengeToken.Some? {
      NoneUnfinished(end.solves, |end.solves| - 1);
    }
  }
}
