/** The background coordinator: it accumulates dwell time on the focused
    tracked site, blocks the site when its limit is reached, runs the
    per-domain quiz, and unblocks the site when the quiz's streak is
    complete. Each handler runs to completion before the next starts.
    Messages to tabs, broadcasts to a domain's tabs and the completion report
    to the backend are appended to an outbox; whether the report's request
    reaches the backend is an input. */
module ServiceWorker {
  import opened Wrappers
  import opened Text
  import opened Types
  import opened Storage
  import opened QuizSession
  import opened DomainMatch
  import opened TimeAccrual

  /** A browser tab: its id, its URL, and the host name the URL parses to
      (`None` when the URL does not parse). */
  datatype Tab = Tab(id: int, url: string, hostname: Option<string>)

  /** What the coordinator sends out. */
  datatype Outgoing =
    | TabSnapshot(tabId: int, message: BlockMessage)
    | DomainSnapshot(domain: string, message: BlockMessage)
    | DomainUnblock(domain: string)
    | CompletionReport(roomId: string, score: int, totalQuestions: int, usageSeconds: int,
                       wrongAnswers: seq<WrongAnswer>)

  /** `senderTab?.url ? extractDomain(senderTab.url) : null` */
  function SenderDomain(sender: Option<Tab>): (d: Option<string>)
    ensures sender.None? || sender.value.url == [] ==> d.None?
    ensures sender.Some? && sender.value.url != [] ==> d == ExtractDomain(sender.value.hostname)
  {
    if sender.Some? && sender.value.url != [] then ExtractDomain(sender.value.hostname) else None
  }

  /** The audit trail as reported: every entry tagged with the room. */
  function WithRoom(ws: seq<WrongAnswer>, roomId: string): (r: seq<WrongAnswer>)
    ensures |r| == |ws|
    ensures forall k :: 0 <= k < |ws| ==> r[k] == ws[k].(roomId := Some(roomId))
  {
    seq(|ws|, k requires 0 <= k < |ws| => ws[k].(roomId := Some(roomId)))
  }

  /** `submitQuizCompletion`: one report, and only when a room is active and
      a token is stored; the score and question count are both the required
      streak. */
  function CompletionReports(settings: Settings, user: Option<StoredUser>, s: DomainQuizState,
                             usageSeconds: int): (r: seq<Outgoing>)
    ensures |r| <= 1
    ensures r != [] <==> Truthy(settings.activeRoomId) && HasToken(user)
    ensures r != [] ==> r[0] == CompletionReport(settings.activeRoomId.value, s.requiredCorrect,
                                                  s.requiredCorrect, usageSeconds,
                                                  WithRoom(s.wrongAnswers, settings.activeRoomId.value))
  {
    if !Truthy(settings.activeRoomId) || !HasToken(user) then []
    else
      var roomId := settings.activeRoomId.value;
      [CompletionReport(roomId, s.requiredCorrect, s.requiredCorrect, usageSeconds,
                        WithRoom(s.wrongAnswers, roomId))]
  }

  /** How the completion report's request ends: it reaches the server
      (`fetch` resolves, whatever the status), or the server cannot be
      reached and `fetch` rejects. */
  datatype ReportOutcome = Reached | Unreachable

  /** What a handler reads but never writes: the settings, the signed-in
      user, and what a question request would come back with. */
  datatype Env = Env(settings: Settings, user: Option<StoredUser>, fetch: FetchOutcome)

  function Questions(env: Env): seq<QuizQuestion> {
    FetchQuizQuestions(env.settings.activeRoomId, env.user, env.fetch)
  }

  /** What the handlers change: the time-tracking blob, the session map and
      the outbox. */
  datatype Engine = Engine(timeBlob: Option<TimeTrackingData>,
                           sessions: map<string, DomainQuizState>,
                           outbox: seq<Outgoing>)

  function TimeData(e: Engine): TimeTrackingData {
    TimeTrackingOrEmpty(e.timeBlob)
  }

  predicate IsBlocked(data: TimeTrackingData, domain: string) {
    domain in data && data[domain].blocked
  }

  /** The shared guard of both quiz handlers: a (non-empty) domain whose
      record is blocked. */
  predicate Reaches(e: Engine, domain: Option<string>) {
    Truthy(domain) && IsBlocked(TimeData(e), domain.value)
  }

  /** Every session is one the transitions keep well-formed: a streak short
      of the requirement, or a spent session a cut-short completion left. */
  predicate AllSessionsOk(sessions: map<string, DomainQuizState>) {
    forall d :: d in sessions ==> SessionOk(sessions[d]) || Spent(sessions[d])
  }

  /** A session exists only for a blocked domain. */
  predicate SessionsBlocked(e: Engine) {
    forall d :: d in e.sessions ==> IsBlocked(TimeData(e), d)
  }

  /** A session exists only for a blocked domain, unless it is spent. */
  predicate SessionsAccounted(e: Engine) {
    forall d :: d in e.sessions ==> IsBlocked(TimeData(e), d) || Spent(e.sessions[d])
  }

  /** The outbox only grows. */
  predicate Appended(before: Engine, after: Engine) {
    |before.outbox| <= |after.outbox| && after.outbox[..|before.outbox|] == before.outbox
  }

  /** `ensureQuizState`, on the engine: a session for `d` exists afterwards. */
  function EnsureAt(e: Engine, env: Env, d: string): (r: Engine)
    ensures d in r.sessions
    ensures r.timeBlob == e.timeBlob && r.outbox == e.outbox
    ensures r.sessions == EnsureSession(e.sessions, d, Questions(env))
  {
    e.(sessions := EnsureSession(e.sessions, d, Questions(env)))
  }

  /** `broadcastQuizState(d, text, kind)`: a snapshot of `d`'s session for
      `d`'s tabs, or nothing when `d` has no session. */
  function BroadcastAt(e: Engine, d: string, text: Option<string>,
                       kind: Option<FeedbackType>): (r: Engine)
    ensures r.timeBlob == e.timeBlob && r.sessions == e.sessions
    ensures d !in e.sessions ==> r.outbox == e.outbox
    ensures d in e.sessions ==>
              r.outbox == e.outbox + [DomainSnapshot(d, BuildBlockMessage(e.sessions[d], text, kind))]
  {
    if d in e.sessions
    then e.(outbox := e.outbox + [DomainSnapshot(d, BuildBlockMessage(e.sessions[d], text, kind))])
    else e
  }

  /** A completing answer whose report is sent (a room is active and a token
      stored) and rejected: the error escapes `handleQuizAnswer` after `d`'s
      record was reset but before its session is deleted and its tabs are
      told to unblock. */
  predicate ReportAborts(e: Engine, settings: Settings, user: Option<StoredUser>, d: string,
                         selectedIndex: int, report: ReportOutcome)
    requires d in e.sessions && |e.sessions[d].questions| > 0
  {
    && Answer(e.sessions[d], selectedIndex).Complete?
    && Truthy(settings.activeRoomId) && HasToken(user) && report == Unreachable
  }

  /** The answer applied to `d`'s session (which has questions), as
      `handleQuizAnswer` does once past its guard. When the report aborts,
      the record is already zeroed and unblocked, but the spent session stays
      and nothing is sent; otherwise as `GuardedAnswerAt`. */
  function AnswerAt(e: Engine, settings: Settings, user: Option<StoredUser>, d: string,
                    selectedIndex: int, report: ReportOutcome): Engine
    requires d in e.sessions && |e.sessions[d].questions| > 0
  {
    if ReportAborts(e, settings, user, d, selectedIndex, report) then
      Engine(Some(ResetDomain(TimeData(e), d)),
             e.sessions[d := Answer(e.sessions[d], selectedIndex).session], e.outbox)
    else GuardedAnswerAt(e, settings, user, d, selectedIndex)
  }

  /** The answer as it evidently should go, with the report's failure caught
      like every other request's: a quiz still running is stored and
      re-broadcast with the answer's feedback; a completed one zeroes and
      unblocks `d`'s record, is reported with the floored usage, is deleted,
      and `d`'s tabs are told to unblock. */
  function GuardedAnswerAt(e: Engine, settings: Settings, user: Option<StoredUser>, d: string,
                           selectedIndex: int): Engine
    requires d in e.sessions && |e.sessions[d].questions| > 0
  {
    var s := e.sessions[d];
    match Answer(s, selectedIndex)
    case InQuiz(t) =>
      var f := AnswerFeedback(s, selectedIndex);
      BroadcastAt(e.(sessions := e.sessions[d := t]), d, Some(f.0), Some(f.1))
    case Complete(t) =>
      Engine(Some(ResetDomain(TimeData(e), d)), e.sessions - {d},
             e.outbox + CompletionReports(settings, user, t, UsageSeconds(TimeData(e), d))
               + [DomainUnblock(d)])
  }

  /** `handleQuizAnswer`: nothing unless the sender's domain is blocked; then
      the domain's session is ensured and, when it has questions, the answer
      is applied to it. */
  function AnswerSpec(e: Engine, env: Env, sender: Option<Tab>, selectedIndex: int,
                      report: ReportOutcome): Engine {
    var domain := SenderDomain(sender);
    if !Reaches(e, domain) then e
    else
      var e1 := EnsureAt(e, env, domain.value);
      if |e1.sessions[domain.value].questions| == 0 then e1
      else AnswerAt(e1, env.settings, env.user, domain.value, selectedIndex, report)
  }

  /** Whether `handleQuizAnswer` throws, so that its listener replies
      `{success: false}`: only when the completion report aborts. */
  predicate AnswerThrows(e: Engine, env: Env, sender: Option<Tab>, selectedIndex: int,
                         report: ReportOutcome) {
    var domain := SenderDomain(sender);
    && Reaches(e, domain)
    && var e1 := EnsureAt(e, env, domain.value);
    && |e1.sessions[domain.value].questions| > 0
    && ReportAborts(e1, env.settings, env.user, domain.value, selectedIndex, report)
  }

  /** `handleNextQuestion`: behind the same guard, the domain's session (if
      it has questions) moves on and is re-broadcast without feedback. */
  function NextSpec(e: Engine, env: Env, sender: Option<Tab>): Engine {
    var domain := SenderDomain(sender);
    if !Reaches(e, domain) then e
    else
      NextAt(e, env, domain.value)
  }

  /** `handleNextQuestion` past its guard, on the blocked domain `d`. */
  function NextAt(e: Engine, env: Env, d: string): Engine {
    var e1 := EnsureAt(e, env, d);
    if |e1.sessions[d].questions| == 0 then e1
    else BroadcastAt(e1.(sessions := e1.sessions[d := Next(e1.sessions[d])]), d, None, None)
  }

  /** `syncBlockedTab(tabId, domain)`: for a real tab (id present and
      non-zero) showing a blocked domain, the domain's session is ensured and
      sent to that tab. */
  function SyncSpec(e: Engine, env: Env, tabId: Option<int>, domain: Option<string>): Engine {
    if tabId.None? || tabId.value == 0 || !Reaches(e, domain) then e
    else
      var e1 := EnsureAt(e, env, domain.value);
      e1.(outbox := e1.outbox + [TabSnapshot(tabId.value, BuildBlockMessage(e1.sessions[domain.value], None, None))])
  }

  /** `tickTimeTracking` (after `lastTick := now`): a focused, tracked,
      unblocked domain accrues the elapsed seconds; reaching the limit blocks
      it (`triggerBlock`), which ensures its session and broadcasts it. */
  function TickSpec(e: Engine, env: Env, currentDomain: Option<string>, lastTick: int,
                    now: int): Engine
  {
    if !Truthy(currentDomain) || !IsTracked(env.settings.trackedDomains, currentDomain.value) then e
    else AccrueAt(e, env, currentDomain.value, now, ElapsedSeconds(now, lastTick))
  }

  /** The accrual step of a tick on the tracked domain `d`. */
  function AccrueAt(e: Engine, env: Env, d: string, now: int, elapsed: real): Engine {
    match Accrue(TimeData(e), d, now, elapsed, LimitSeconds(env.settings.timeLimitMinutes))
    case None => e
    case Some(data) => SaveAccruedAt(e, env, d, data)
  }

  /** Saving the accrued map, and blocking `d` when its record says so. */
  function SaveAccruedAt(e: Engine, env: Env, d: string, data: TimeTrackingData): Engine
    requires d in data
  {
    if !data[d].blocked then e.(timeBlob := Some(data))
    else BroadcastAt(EnsureAt(e.(timeBlob := Some(data)), env, d), d, None, None)
  }

  /** Both quiz handlers and the tab sync change nothing unless their domain
      is blocked. */
  lemma GuardsHold(e: Engine, env: Env, sender: Option<Tab>, selectedIndex: int,
                   report: ReportOutcome, tabId: Option<int>, domain: Option<string>)
    requires !Reaches(e, SenderDomain(sender)) && !Reaches(e, domain)
    ensures AnswerSpec(e, env, sender, selectedIndex, report) == e
    ensures !AnswerThrows(e, env, sender, selectedIndex, report)
    ensures NextSpec(e, env, sender) == e
    ensures SyncSpec(e, env, tabId, domain) == e
  {
  }

  /** An answer that leaves the quiz running changes only the domain's
      session and broadcasts it with the answer's feedback. */
  lemma AnswerWhileRunning(e: Engine, settings: Settings, user: Option<StoredUser>, d: string,
                           selectedIndex: int, report: ReportOutcome)
    requires d in e.sessions && |e.sessions[d].questions| > 0
    requires Answer(e.sessions[d], selectedIndex).InQuiz?
    ensures !ReportAborts(e, settings, user, d, selectedIndex, report)
    ensures var t := Answer(e.sessions[d], selectedIndex).session;
            var f := AnswerFeedback(e.sessions[d], selectedIndex);
            var r := AnswerAt(e, settings, user, d, selectedIndex, report);
            && r.sessions == e.sessions[d := t]
            && r.timeBlob == e.timeBlob
            && r.outbox == e.outbox + [DomainSnapshot(d, BuildBlockMessage(t, Some(f.0), Some(f.1)))]
  {
  }

  /** Completion: the domain's record gets zero seconds and is unblocked
      (every other record kept). Unless the report aborts, the report
      carries the floor of the prior total, the session is deleted (no other
      session changes), and the domain's tabs are told to unblock; when it
      aborts, the spent session stays and nothing is sent. */
  lemma AnswerCompletes(e: Engine, settings: Settings, user: Option<StoredUser>, d: string,
                        selectedIndex: int, report: ReportOutcome)
    requires d in e.sessions && |e.sessions[d].questions| > 0 && d in TimeData(e)
    requires Answer(e.sessions[d], selectedIndex).Complete?
    ensures var r := AnswerAt(e, settings, user, d, selectedIndex, report);
            && d in TimeData(r) && TimeData(r)[d].totalSeconds == 0.0 && !TimeData(r)[d].blocked
            && (forall x :: x in TimeData(e) && x != d ==> x in TimeData(r) && TimeData(r)[x] == TimeData(e)[x])
    ensures var r := AnswerAt(e, settings, user, d, selectedIndex, report);
            !ReportAborts(e, settings, user, d, selectedIndex, report) ==>
              && r.sessions == e.sessions - {d}
              && r.outbox == e.outbox
                   + CompletionReports(settings, user, Answer(e.sessions[d], selectedIndex).session,
                                       TimeData(e)[d].totalSeconds.Floor)
                   + [DomainUnblock(d)]
    ensures var r := AnswerAt(e, settings, user, d, selectedIndex, report);
            ReportAborts(e, settings, user, d, selectedIndex, report) ==>
              && r.sessions == e.sessions[d := Answer(e.sessions[d], selectedIndex).session]
              && r.outbox == e.outbox
  {
  }

  /** On a blocked domain's session, choosing again the wrong option just
      chosen only re-broadcasts the session with a "pick a different answer"
      notice: no session and no time record changes. */
  lemma RepeatedWrongOnlyNotifies(e: Engine, env: Env, sender: Option<Tab>, selectedIndex: int,
                                  report: ReportOutcome)
    requires Reaches(e, SenderDomain(sender))
    requires var d := SenderDomain(sender).value;
             d in e.sessions && |e.sessions[d].questions| > 0
             && Classify(e.sessions[d], selectedIndex) == RepeatWrong
    ensures var d := SenderDomain(sender).value;
            var r := AnswerSpec(e, env, sender, selectedIndex, report);
            && r.sessions == e.sessions && r.timeBlob == e.timeBlob
            && r.outbox == e.outbox + [DomainSnapshot(d, BuildBlockMessage(e.sessions[d],
                 Some("Pick a different answer for this question."), Some(WrongFeedback)))]
  {
    var d := SenderDomain(sender).value;
    assert EnsureAt(e, env, d) == e;
    assert e.sessions[d := e.sessions[d]] == e.sessions;
  }

  /** "Next question" on a blocked domain's session with questions: index
      up by one, guard cleared, streak and audit trail kept, time untouched. */
  lemma NextMovesOn(e: Engine, env: Env, sender: Option<Tab>)
    requires Reaches(e, SenderDomain(sender))
    requires var d := SenderDomain(sender).value;
             d in e.sessions && |e.sessions[d].questions| > 0
    ensures var d := SenderDomain(sender).value;
            var s := e.sessions[d];
            var r := NextSpec(e, env, sender);
            && d in r.sessions
            && r.sessions[d].currentQuestionIndex == s.currentQuestionIndex + 1
            && r.sessions[d].lastWrongSelectedIndex.None?
            && r.sessions[d].consecutiveCorrect == s.consecutiveCorrect
            && r.sessions[d].wrongAnswers == s.wrongAnswers
            && r.timeBlob == e.timeBlob
  {
    var d := SenderDomain(sender).value;
    assert EnsureAt(e, env, d) == e;
  }

  /** No accrual while blocked: a tick on a blocked domain changes nothing. */
  lemma TickSkipsBlocked(e: Engine, env: Env, currentDomain: Option<string>, lastTick: int, now: int)
    requires Truthy(currentDomain) && IsBlocked(TimeData(e), currentDomain.value)
    ensures TickSpec(e, env, currentDomain, lastTick, now) == e
  {
  }

  /** A tick on a focused, tracked, unblocked domain stores exactly the
      accrued map; the domain is blocked, gets its session and is broadcast
      exactly when the total reaches the limit; no existing session changes. */
  lemma TickAccrues(e: Engine, env: Env, currentDomain: Option<string>, lastTick: int, now: int)
    requires Truthy(currentDomain) && IsTracked(env.settings.trackedDomains, currentDomain.value)
    requires !IsBlocked(TimeData(e), currentDomain.value)
    ensures var d := currentDomain.value;
            var acc := Accrue(TimeData(e), d, now, ElapsedSeconds(now, lastTick),
                              LimitSeconds(env.settings.timeLimitMinutes));
            var r := TickSpec(e, env, currentDomain, lastTick, now);
            && acc.Some?
            && r.timeBlob == Some(acc.value)
            && (!acc.value[d].blocked ==> r.sessions == e.sessions && r.outbox == e.outbox)
            && (acc.value[d].blocked ==>
                  r.sessions == EnsureSession(e.sessions, d, Questions(env))
                  && r.outbox == e.outbox + [DomainSnapshot(d, BuildBlockMessage(r.sessions[d], None, None))])
  {
  }

  lemma EnsureKeepsSessionsOk(e: Engine, env: Env, d: string)
    requires AllSessionsOk(e.sessions)
    ensures AllSessionsOk(EnsureAt(e, env, d).sessions)
  {
    NewSessionOk(Questions(env));
  }

  /** Each handler keeps every session well-formed. */
  lemma AnswerKeepsSessionsOk(e: Engine, env: Env, sender: Option<Tab>, selectedIndex: int,
                              report: ReportOutcome)
    requires AllSessionsOk(e.sessions)
    ensures AllSessionsOk(AnswerSpec(e, env, sender, selectedIndex, report).sessions)
  {
    var domain := SenderDomain(sender);
    if Reaches(e, domain) {
      var d := domain.value;
      EnsureKeepsSessionsOk(e, env, d);
      var e1 := EnsureAt(e, env, d);
      if |e1.sessions[d].questions| > 0 {
        SpentTransitions(e1.sessions[d], selectedIndex);
      }
    }
  }

  lemma NextKeepsSessionsOk(e: Engine, env: Env, sender: Option<Tab>)
    requires AllSessionsOk(e.sessions)
    ensures AllSessionsOk(NextSpec(e, env, sender).sessions)
  {
    var domain := SenderDomain(sender);
    if Reaches(e, domain) {
      var d := domain.value;
      EnsureKeepsSessionsOk(e, env, d);
      var e1 := EnsureAt(e, env, d);
      if |e1.sessions[d].questions| > 0 {
        if SessionOk(e1.sessions[d]) {
          TransitionsKeepSessionOk(e1.sessions[d], 0);
        } else {
          SpentTransitions(e1.sessions[d], 0);
        }
      }
    }
  }

  lemma SyncKeepsSessionsOk(e: Engine, env: Env, tabId: Option<int>, domain: Option<string>)
    requires AllSessionsOk(e.sessions)
    ensures AllSessionsOk(SyncSpec(e, env, tabId, domain).sessions)
  {
    if domain.Some? {
      EnsureKeepsSessionsOk(e, env, domain.value);
    }
  }

  lemma TickKeepsSessionsOk(e: Engine, env: Env, currentDomain: Option<string>, lastTick: int, now: int)
    requires AllSessionsOk(e.sessions)
    ensures AllSessionsOk(TickSpec(e, env, currentDomain, lastTick, now).sessions)
  {
    if currentDomain.Some? {
      var d := currentDomain.value;
      var acc := Accrue(TimeData(e), d, now, ElapsedSeconds(now, lastTick),
                        LimitSeconds(env.settings.timeLimitMinutes));
      if acc.Some? {
        EnsureKeepsSessionsOk(e.(timeBlob := Some(acc.value)), env, d);
      }
    }
  }

  /** With the report's failure caught, sessions exist only for blocked
      domains and an answer keeps it so: a domain is unblocked only together
      with the deletion of its session. */
  lemma GuardedAnswerKeepsSessionsBlocked(e: Engine, settings: Settings, user: Option<StoredUser>,
                                          d: string, selectedIndex: int)
    requires SessionsBlocked(e) && d in e.sessions && |e.sessions[d].questions| > 0
    ensures SessionsBlocked(GuardedAnswerAt(e, settings, user, d, selectedIndex))
  {
    var r := GuardedAnswerAt(e, settings, user, d, selectedIndex);
    if Answer(e.sessions[d], selectedIndex).Complete? {
      assert TimeData(r) == ResetDomain(TimeData(e), d);
    } else {
      assert TimeData(r) == TimeData(e);
    }
  }

  /** As written, an answer keeps every session on a blocked domain or
      spent: the only session an unblocked domain can keep is the spent one
      an aborted report leaves behind. */
  lemma AnswerKeepsSessionsAccounted(e: Engine, env: Env, sender: Option<Tab>, selectedIndex: int,
                                     report: ReportOutcome)
    requires SessionsAccounted(e) && AllSessionsOk(e.sessions)
    ensures SessionsAccounted(AnswerSpec(e, env, sender, selectedIndex, report))
  {
    var domain := SenderDomain(sender);
    if Reaches(e, domain) {
      var d := domain.value;
      EnsureKeepsSessionsOk(e, env, d);
      var e1 := EnsureAt(e, env, d);
      if |e1.sessions[d].questions| > 0 {
        var r := AnswerAt(e1, env.settings, env.user, d, selectedIndex, report);
        SpentTransitions(e1.sessions[d], selectedIndex);
        if Answer(e1.sessions[d], selectedIndex).Complete? {
          assert TimeData(r) == ResetDomain(TimeData(e), d);
        } else {
          assert TimeData(r) == TimeData(e);
        }
      }
    }
  }

  /** The cut-short completion, as written: once a room and a token are set
      and the report's request is rejected, the domain is unblocked with its
      time zeroed, yet its spent session stays and its tabs are not told to
      unblock. When the domain is blocked again, ensuring its session keeps
      that spent one, and a single right answer then completes the quiz. */
  lemma RejectedReportLeavesStaleSession(e: Engine, env: Env, d: string, selectedIndex: int,
                                         nextIndex: int)
    requires d in e.sessions && |e.sessions[d].questions| > 0 && d in TimeData(e)
    requires SessionOk(e.sessions[d]) || Spent(e.sessions[d])
    requires Answer(e.sessions[d], selectedIndex).Complete?
    requires Truthy(env.settings.activeRoomId) && HasToken(env.user)
    ensures var r := AnswerAt(e, env.settings, env.user, d, selectedIndex, Unreachable);
            && d in r.sessions && Spent(r.sessions[d])
            && !IsBlocked(TimeData(r), d) && TimeData(r)[d].totalSeconds == 0.0
            && !SessionsBlocked(r)
            && r.outbox == e.outbox
            && EnsureAt(r, env, d).sessions[d] == r.sessions[d]
            && (Classify(r.sessions[d], nextIndex) == Right ==> Answer(r.sessions[d], nextIndex).Complete?)
  {
    var r := AnswerAt(e, env.settings, env.user, d, selectedIndex, Unreachable);
    SpentTransitions(e.sessions[d], selectedIndex);
    SpentTransitions(r.sessions[d], nextIndex);
    assert TimeData(r) == ResetDomain(TimeData(e), d);
  }

  /** The corrected completion: whatever happens to the report, the
      session is deleted, the domain is unblocked with its time zeroed, and
      its tabs are told to unblock. */
  lemma GuardedCompletionUnblocks(e: Engine, env: Env, d: string, selectedIndex: int)
    requires d in e.sessions && |e.sessions[d].questions| > 0 && d in TimeData(e)
    requires Answer(e.sessions[d], selectedIndex).Complete?
    ensures var r := GuardedAnswerAt(e, env.settings, env.user, d, selectedIndex);
            && d !in r.sessions
            && !IsBlocked(TimeData(r), d) && TimeData(r)[d].totalSeconds == 0.0
            && |r.outbox| > |e.outbox| && r.outbox[|r.outbox| - 1] == DomainUnblock(d)
  {
  }

  lemma NextKeepsSessionsBlocked(e: Engine, env: Env, sender: Option<Tab>)
    requires SessionsBlocked(e)
    ensures SessionsBlocked(NextSpec(e, env, sender))
  {
  }

  lemma SyncKeepsSessionsBlocked(e: Engine, env: Env, tabId: Option<int>, domain: Option<string>)
    requires SessionsBlocked(e)
    ensures SessionsBlocked(SyncSpec(e, env, tabId, domain))
  {
  }

  lemma TickKeepsSessionsBlocked(e: Engine, env: Env, currentDomain: Option<string>, lastTick: int,
                                 now: int)
    requires SessionsBlocked(e)
    ensures SessionsBlocked(TickSpec(e, env, currentDomain, lastTick, now))
  {
    if Truthy(currentDomain) && IsTracked(env.settings.trackedDomains, currentDomain.value)
       && !IsBlocked(TimeData(e), currentDomain.value) {
      var d := currentDomain.value;
      assert d !in e.sessions;
      TickAccrues(e, env, currentDomain, lastTick, now);
    }
  }

  /** Moving on, syncing a tab and a tick keep every session on a blocked
      domain or spent, as an answer does. */
  lemma NextKeepsSessionsAccounted(e: Engine, env: Env, sender: Option<Tab>)
    requires SessionsAccounted(e)
    ensures SessionsAccounted(NextSpec(e, env, sender))
  {
  }

  lemma SyncKeepsSessionsAccounted(e: Engine, env: Env, tabId: Option<int>, domain: Option<string>)
    requires SessionsAccounted(e)
    ensures SessionsAccounted(SyncSpec(e, env, tabId, domain))
  {
  }

  lemma TickKeepsSessionsAccounted(e: Engine, env: Env, currentDomain: Option<string>, lastTick: int,
                                   now: int)
    requires SessionsAccounted(e)
    ensures SessionsAccounted(TickSpec(e, env, currentDomain, lastTick, now))
  {
    if Truthy(currentDomain) && IsTracked(env.settings.trackedDomains, currentDomain.value)
       && !IsBlocked(TimeData(e), currentDomain.value) {
      TickAccrues(e, env, currentDomain, lastTick, now);
    }
  }

  /** The worker's state. */
  class Worker {
    const store: Store
    var currentTabId: Option<int>
    var currentDomain: Option<string>
    var lastTick: int
    var quizStates: map<string, DomainQuizState>
    var outbox: seq<Outgoing>

    /** The worker as it starts: no focused tab, no sessions, and the clock
        read at start-up as the last tick. */
    constructor (store: Store, now: int)
      ensures this.store == store && currentTabId.None? && currentDomain.None?
      ensures lastTick == now && quizStates == map[] && outbox == []
    {
      this.store := store;
      currentTabId := None;
      currentDomain := None;
      lastTick := now;
      quizStates := map[];
      outbox := [];
    }

    function State(): Engine
      reads this, store
    {
      Engine(store.timeBlob, quizStates, outbox)
    }

    function EnvWith(fetch: FetchOutcome): Env
      reads store
    {
      Env(store.CurrentSettings(), store.userBlob, fetch)
    }

    predicate Valid()
      reads this
    {
      AllSessionsOk(quizStates)
    }

    /** `fetchQuizQuestions`, with the request's outcome given. */
    method FetchQuestions(fetch: FetchOutcome) returns (qs: seq<QuizQuestion>)
      ensures qs == Questions(EnvWith(fetch))
    {
      var settings := store.GetSettings();
      var user := store.GetUser();
      qs := FetchQuizQuestions(settings.activeRoomId, user, fetch);
    }

    /** `ensureQuizState`: the domain's session, created (with fetched
        questions) if it did not exist. */
    method EnsureQuizState(domain: string, fetch: FetchOutcome) returns (s: DomainQuizState)
      modifies this
      ensures State() == EnsureAt(old(State()), EnvWith(fetch), domain)
      ensures s == quizStates[domain]
      ensures currentTabId == old(currentTabId) && currentDomain == old(currentDomain)
      ensures lastTick == old(lastTick)
    {
      if domain !in quizStates {
        var qs := FetchQuestions(fetch);
        quizStates := quizStates[domain := NewSession(qs)];
      }
      s := quizStates[domain];
    }

    /** `broadcastQuizState`. */
    method BroadcastQuizState(domain: string, text: Option<string>, kind: Option<FeedbackType>)
      modifies this
      ensures State() == BroadcastAt(old(State()), domain, text, kind)
      ensures currentTabId == old(currentTabId) && currentDomain == old(currentDomain)
      ensures lastTick == old(lastTick)
    {
      if domain !in quizStates {
        return;
      }
      outbox := outbox + [DomainSnapshot(domain, BuildBlockMessage(quizStates[domain], text, kind))];
    }

    /** `broadcastUnblock`. */
    method BroadcastUnblock(domain: string)
      modifies this
      ensures outbox == old(outbox) + [DomainUnblock(domain)]
      ensures quizStates == old(quizStates)
      ensures currentTabId == old(currentTabId) && currentDomain == old(currentDomain)
      ensures lastTick == old(lastTick)
    {
      outbox := outbox + [DomainUnblock(domain)];
    }

    /** `consumeDomainUsageAndUnblock`: the floored seconds of the domain's
        record (0 with no record); a present record is zeroed and unblocked
        and the map written back. */
    method ConsumeDomainUsageAndUnblock(domain: string) returns (usageSeconds: int)
      modifies store
      ensures usageSeconds == UsageSeconds(old(store.TimeTracking()), domain)
      ensures domain in old(store.TimeTracking()) ==>
                store.timeBlob == Some(ResetDomain(old(store.TimeTracking()), domain))
      ensures domain !in old(store.TimeTracking()) ==> store.timeBlob == old(store.timeBlob)
      ensures store.settingsBlob == old(store.settingsBlob) && store.userBlob == old(store.userBlob)
    {
      var data := store.GetTimeTracking();
      usageSeconds := 0;
      if domain in data {
        usageSeconds := data[domain].totalSeconds.Floor;
        data := data[domain := data[domain].(totalSeconds := 0.0, blocked := false)];
        store.SaveTimeTracking(data);
      }
    }

    /** `submitQuizCompletion`, with the request's outcome given: a report
        that reaches the server joins the outbox; a rejected request throws
        (`threw`), and nothing is sent. */
    method SubmitQuizCompletion(s: DomainQuizState, usageSeconds: int, report: ReportOutcome)
      returns (threw: bool)
      modifies this
      ensures threw <==> Truthy(store.CurrentSettings().activeRoomId) && HasToken(store.userBlob)
                         && report == Unreachable
      ensures !threw ==>
                outbox == old(outbox) + CompletionReports(store.CurrentSettings(), store.userBlob, s, usageSeconds)
      ensures threw ==> outbox == old(outbox)
      ensures quizStates == old(quizStates)
      ensures currentTabId == old(currentTabId) && currentDomain == old(currentDomain)
      ensures lastTick == old(lastTick)
    {
      var settings := store.GetSettings();
      var user := store.GetUser();
      if !Truthy(settings.activeRoomId) || !HasToken(user) {
        return false;
      }
      if report == Unreachable {
        return true;
      }
      var roomId := settings.activeRoomId.value;
      outbox := outbox + [CompletionReport(roomId, s.requiredCorrect, s.requiredCorrect, usageSeconds,
                                           WithRoom(s.wrongAnswers, roomId))];
      threw := false;
    }

    /** `syncBlockedTab`. */
    method SyncBlockedTab(tabId: Option<int>, domain: Option<string>, fetch: FetchOutcome)
      requires Valid()
      modifies this
      ensures State() == SyncSpec(old(State()), EnvWith(fetch), tabId, domain)
      ensures Valid()
      ensures currentTabId == old(currentTabId) && currentDomain == old(currentDomain)
      ensures lastTick == old(lastTick)
    {
      if tabId.None? || tabId.value == 0 || !Truthy(domain) {
        return;
      }
      var data := store.GetTimeTracking();
      if !IsBlocked(data, domain.value) {
        return;
      }
      var s := EnsureQuizState(domain.value, fetch);
      outbox := outbox + [TabSnapshot(tabId.value, BuildBlockMessage(s, None, None))];
      NewSessionOk(Questions(EnvWith(fetch)));
    }

    /** The body of `handleQuizAnswer` past its guard: `domain`'s session
        exists, has questions, and `domain` has a time record. */
    method AnswerQuestion(domain: string, selectedIndex: int, report: ReportOutcome)
      returns (threw: bool)
      requires domain in quizStates && |quizStates[domain].questions| > 0
      requires domain in store.TimeTracking()
      modifies this, store
      ensures State() == AnswerAt(old(State()), store.CurrentSettings(), store.userBlob, domain,
                                  selectedIndex, report)
      ensures threw <==> ReportAborts(old(State()), store.CurrentSettings(), store.userBlob, domain,
                                      selectedIndex, report)
      ensures store.settingsBlob == old(store.settingsBlob) && store.userBlob == old(store.userBlob)
      ensures currentTabId == old(currentTabId) && currentDomain == old(currentDomain)
      ensures lastTick == old(lastTick)
    {
      ghost var e0 := State();
      var s := quizStates[domain];
      var q := CurrentQuestion(s);
      if selectedIndex as real == q.correctIndex {
        assert Classify(e0.sessions[domain], selectedIndex) == Right;
        threw := CorrectAnswer(domain, selectedIndex, report);
        return;
      }
      if s.lastWrongSelectedIndex.Some? && selectedIndex == s.lastWrongSelectedIndex.value {
        assert Answer(s, selectedIndex) == InQuiz(s);
        assert AnswerFeedback(s, selectedIndex) ==
          ("Pick a different answer for this question.", WrongFeedback);
        BroadcastQuizState(domain, Some("Pick a different answer for this question."), Some(WrongFeedback));
        assert quizStates == e0.sessions[domain := s];
        return false;
      }
      assert Classify(e0.sessions[domain], selectedIndex) == NewWrong;
      s := s.(consecutiveCorrect := 0, lastWrongSelectedIndex := Some(selectedIndex),
              wrongAnswers := s.wrongAnswers + [WrongEntry(q, selectedIndex)]);
      assert Answer(e0.sessions[domain], selectedIndex) == InQuiz(s);
      quizStates := quizStates[domain := s];
      var explanation := if q.explanation.Some? then Trim(q.explanation.value) else "";
      var feedback := if explanation != "" then "Wrong answer.\n\nWhy this is correct:\n" + explanation
                      else "Wrong answer.";
      assert AnswerFeedback(e0.sessions[domain], selectedIndex) == (feedback, WrongFeedback);
      BroadcastQuizState(domain, Some(feedback), Some(WrongFeedback));
      threw := false;
    }

    /** The correct-answer branch of `handleQuizAnswer`: the streak grows and
        the guard is cleared; a completed streak consumes the usage, reports
        it, deletes the session and unblocks the domain's tabs; otherwise the
        quiz moves to the next question and is re-broadcast. */
    method CorrectAnswer(domain: string, selectedIndex: int, report: ReportOutcome)
      returns (threw: bool)
      requires domain in quizStates && |quizStates[domain].questions| > 0
      requires domain in store.TimeTracking()
      requires Classify(quizStates[domain], selectedIndex) == Right
      modifies this, store
      ensures State() == AnswerAt(old(State()), store.CurrentSettings(), store.userBlob, domain,
                                  selectedIndex, report)
      ensures threw <==> ReportAborts(old(State()), store.CurrentSettings(), store.userBlob, domain,
                                      selectedIndex, report)
      ensures store.settingsBlob == old(store.settingsBlob) && store.userBlob == old(store.userBlob)
      ensures currentTabId == old(currentTabId) && currentDomain == old(currentDomain)
      ensures lastTick == old(lastTick)
    {
      ghost var e0 := State();
      var s := quizStates[domain];
      s := s.(consecutiveCorrect := s.consecutiveCorrect + 1, lastWrongSelectedIndex := None);
      quizStates := quizStates[domain := s];
      if s.consecutiveCorrect >= s.requiredCorrect {
        assert Answer(e0.sessions[domain], selectedIndex) == Complete(s);
        var usageSeconds := ConsumeDomainUsageAndUnblock(domain);
        threw := SubmitQuizCompletion(s, usageSeconds, report);
        if threw {
          assert quizStates == e0.sessions[domain := s];
          return;
        }
        quizStates := quizStates - {domain};
        BroadcastUnblock(domain);
        assert quizStates == e0.sessions - {domain};
        return;
      }
      s := s.(currentQuestionIndex := s.currentQuestionIndex + 1);
      assert Answer(e0.sessions[domain], selectedIndex) == InQuiz(s);
      quizStates := quizStates[domain := s];
      var text := "Correct - " + NatToDecimal(s.requiredCorrect - s.consecutiveCorrect) + " more to go";
      assert AnswerFeedback(e0.sessions[domain], selectedIndex) == (text, CorrectFeedback);
      BroadcastQuizState(domain, Some(text), Some(CorrectFeedback));
      assert quizStates == e0.sessions[domain := s];
      threw := false;
    }

    /** `handleQuizAnswer`, with its listener's reply: `success` is false
        exactly when the handler throws. */
    method HandleQuizAnswer(sender: Option<Tab>, selectedIndex: int, fetch: FetchOutcome,
                            report: ReportOutcome)
      returns (success: bool)
      requires Valid()
      modifies this, store
      ensures State() == AnswerSpec(old(State()), old(EnvWith(fetch)), sender, selectedIndex, report)
      ensures success <==> !AnswerThrows(old(State()), old(EnvWith(fetch)), sender, selectedIndex, report)
      ensures Valid()
      ensures store.settingsBlob == old(store.settingsBlob) && store.userBlob == old(store.userBlob)
      ensures currentTabId == old(currentTabId) && currentDomain == old(currentDomain)
      ensures lastTick == old(lastTick)
    {
      AnswerKeepsSessionsOk(State(), EnvWith(fetch), sender, selectedIndex, report);
      var domain := SenderDomain(sender);
      if !Truthy(domain) {
        return true;
      }
      var data := store.GetTimeTracking();
      if !IsBlocked(data, domain.value) {
        return true;
      }
      var s := EnsureQuizState(domain.value, fetch);
      if |s.questions| == 0 {
        return true;
      }
      var threw := AnswerQuestion(domain.value, selectedIndex, report);
      success := !threw;
    }

    /** `handleNextQuestion`. */
    method HandleNextQuestion(sender: Option<Tab>, fetch: FetchOutcome)
      requires Valid()
      modifies this
      ensures State() == NextSpec(old(State()), EnvWith(fetch), sender)
      ensures Valid()
      ensures currentTabId == old(currentTabId) && currentDomain == old(currentDomain)
      ensures lastTick == old(lastTick)
    {
      NextKeepsSessionsOk(State(), EnvWith(fetch), sender);
      var domain := SenderDomain(sender);
      if !Truthy(domain) {
        return;
      }
      var data := store.GetTimeTracking();
      if !IsBlocked(data, domain.value) {
        return;
      }
      MoveOn(domain.value, fetch);
    }

    /** `handleNextQuestion` past its guard: the session is ensured and, when
        it has questions, moves on and is re-broadcast. */
    method MoveOn(d: string, fetch: FetchOutcome)
      modifies this
      ensures State() == NextAt(old(State()), EnvWith(fetch), d)
      ensures currentTabId == old(currentTabId) && currentDomain == old(currentDomain)
      ensures lastTick == old(lastTick)
    {
      var s := EnsureQuizState(d, fetch);
      if |s.questions| == 0 {
        return;
      }
      s := s.(currentQuestionIndex := s.currentQuestionIndex + 1, lastWrongSelectedIndex := None);
      quizStates := quizStates[d := s];
      BroadcastQuizState(d, None, None);
    }

    /** `triggerBlock`: the record is marked blocked and the map written
        back, then the domain's session is ensured and broadcast. */
    method TriggerBlock(domain: string, data: TimeTrackingData, fetch: FetchOutcome)
      requires domain in data
      modifies this, store
      ensures State() == BroadcastAt(EnsureAt(old(State()).(timeBlob := Some(data[domain := data[domain].(blocked := true)])),
                                              old(EnvWith(fetch)), domain), domain, None, None)
      ensures store.settingsBlob == old(store.settingsBlob) && store.userBlob == old(store.userBlob)
      ensures currentTabId == old(currentTabId) && currentDomain == old(currentDomain)
      ensures lastTick == old(lastTick)
    {
      store.SaveTimeTracking(data[domain := data[domain].(blocked := true)]);
      var s := EnsureQuizState(domain, fetch);
      BroadcastQuizState(domain, None, None);
    }

    /** `tickTimeTracking`, at clock reading `now`. */
    method TickTimeTracking(now: int, fetch: FetchOutcome)
      requires Valid()
      modifies this, store
      ensures State() == TickSpec(old(State()), old(EnvWith(fetch)), old(currentDomain), old(lastTick), now)
      ensures lastTick == now && Valid()
      ensures currentTabId == old(currentTabId) && currentDomain == old(currentDomain)
      ensures store.settingsBlob == old(store.settingsBlob) && store.userBlob == old(store.userBlob)
    {
      TickKeepsSessionsOk(State(), EnvWith(fetch), currentDomain, lastTick, now);
      var elapsed := ElapsedSeconds(now, lastTick);
      lastTick := now;
      if !Truthy(currentDomain) {
        return;
      }
      var settings := store.GetSettings();
      if !IsTracked(settings.trackedDomains, currentDomain.value) {
        return;
      }
      AccrueFocused(currentDomain.value, now, elapsed, fetch);
    }

    /** The body of `tickTimeTracking` past its guards, for the tracked
        domain `d`: the record is created if missing; a blocked record stops
        the tick; otherwise the time is added and saved, and reaching the
        limit triggers the block. */
    method AccrueFocused(d: string, now: int, elapsed: real, fetch: FetchOutcome)
      modifies this, store
      ensures State() == AccrueAt(old(State()), old(EnvWith(fetch)), d, now, elapsed)
      ensures currentTabId == old(currentTabId) && currentDomain == old(currentDomain)
      ensures lastTick == old(lastTick)
      ensures store.settingsBlob == old(store.settingsBlob) && store.userBlob == old(store.userBlob)
    {
      var data := store.GetTimeTracking();
      ghost var data0 := data;
      if d !in data {
        data := data[d := TimeRecord(0.0, now, false)];
      }
      if data[d].blocked {
        return;
      }
      data := data[d := data[d].(totalSeconds := data[d].totalSeconds + elapsed, lastActive := now)];
      ghost var limit := LimitSeconds(store.CurrentSettings().timeLimitMinutes);
      ghost var total := data[d].totalSeconds;
      assert data == data0[d := TimeRecord(total, now, false)];
      assert data[d := data[d].(blocked := total >= limit as real)]
             == data0[d := TimeRecord(total, now, total >= limit as real)];
      assert Accrue(data0, d, now, elapsed, limit)
             == Some(data[d := data[d].(blocked := total >= limit as real)]);
      SaveAccrued(d, data, fetch);
    }

    /** The end of a tick: the map with the accrued (unblocked) record is
        saved, and reaching the limit triggers the block. */
    method SaveAccrued(d: string, data: TimeTrackingData, fetch: FetchOutcome)
      requires d in data && !data[d].blocked
      modifies this, store
      ensures var limit := LimitSeconds(old(store.CurrentSettings()).timeLimitMinutes);
              State() == SaveAccruedAt(old(State()), old(EnvWith(fetch)), d,
                                       data[d := data[d].(blocked := data[d].totalSeconds >= limit as real)])
      ensures currentTabId == old(currentTabId) && currentDomain == old(currentDomain)
      ensures lastTick == old(lastTick)
      ensures store.settingsBlob == old(store.settingsBlob) && store.userBlob == old(store.userBlob)
    {
      store.SaveTimeTracking(data);
      var settings := store.GetSettings();
      var limitSeconds := LimitSeconds(settings.timeLimitMinutes);
      if data[d].totalSeconds >= limitSeconds as real {
        TriggerBlock(d, data, fetch);
      } else {
        assert data[d := data[d].(blocked := false)] == data;
      }
    }

    /** The focus-loss branch of the window listener: a last tick, then no
        domain is focused. */
    method OnFocusLost(now: int, fetch: FetchOutcome)
      requires Valid()
      modifies this, store
      ensures State() == TickSpec(old(State()), old(EnvWith(fetch)), old(currentDomain), old(lastTick), now)
      ensures lastTick == now && currentDomain.None? && Valid()
      ensures currentTabId == old(currentTabId)
      ensures store.settingsBlob == old(store.settingsBlob) && store.userBlob == old(store.userBlob)
    {
      TickTimeTracking(now, fetch);
      currentDomain := None;
    }

    /** The `GET_STATUS` reply for the focused domain (the empty domain when
        none is focused): whether it is blocked, its seconds so far, and the
        limit in seconds. */
    method GetStatus() returns (isBlocked: bool, timeSpent: real, timeLimit: int)
      ensures var d := if Truthy(currentDomain) then currentDomain.value else "";
              && (isBlocked <==> IsBlocked(store.TimeTracking(), d))
              && timeSpent == PriorTotal(store.TimeTracking(), d)
              && timeLimit == store.CurrentSettings().timeLimitMinutes * 60
    {
      var data := store.GetTimeTracking();
      var settings := store.GetSettings();
      var d := if Truthy(currentDomain) then currentDomain.value else "";
      isBlocked := d in data && data[d].blocked;
      timeSpent := if d in data then data[d].totalSeconds else 0.0;
      timeLimit := LimitSeconds(settings.timeLimitMinutes);
    }
  }
}
