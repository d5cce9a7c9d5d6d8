/**
 * Properties of the session engine that relate several events: how a run of
 * `next_question` requests walks through a quiz, the one-answer-per-question
 * rule, the teacher-token guard, and the one case where the store leaves the
 * "no quiz means waiting" shape.
 */
module Properties {
  import opened Wrappers
  import opened Js
  import opened QuizFormat
  import opened Persistence
  import opened Business

  /** The store after `k` successive `next_question` requests carrying the same data. */
  function Advances(s: Store, k: nat, ws: ConnId, data: Json, token: string, open: set<ConnId>): (r: Store)
    requires Inv(s)
    ensures Inv(r)
    ensures r.quiz == s.quiz && r.order == s.order && r.participants == s.participants
    decreases k
  {
    if k == 0 then s else Advances(Advance(s, ws, data, token, open).store, k - 1, ws, data, token, open)
  }

  /** Once the session has ended, further requests to advance change nothing. */
  lemma {:induction false} AdvancesAfterEnd(s: Store, k: nat, ws: ConnId, data: Json, token: string, open: set<ConnId>)
    requires Inv(s) && s.state == Ended
    ensures Advances(s, k, ws, data, token, open) == s
    decreases k
  {
    if k > 0 {
      AdvancesAfterEnd(Advance(s, ws, data, token, open).store, k - 1, ws, data, token, open);
    }
  }

  /**
   * From a store with a quiz, not ended and with an empty ledger, `k`
   * authorized advances open question `currentIndex + k` while there is one,
   * and end the session on the last question once they run past it.
   */
  lemma {:induction false} AdvancesFrom(s: Store, k: nat, ws: ConnId, data: Json, token: string, open: set<ConnId>)
    requires Inv(s) && RequireTeacher(data, token)
    requires s.quiz.Some? && s.state != Ended && s.answers == map[]
    ensures var r := Advances(s, k, ws, data, token, open);
            var n := |s.quiz.value.questions|;
            && r.answers == map[]
            && (k == 0 ==> r == s)
            && (1 <= k && s.currentIndex + k < n ==> r.state == Asking && r.currentIndex == s.currentIndex + k)
            && (1 <= k && s.currentIndex + k >= n ==> r.state == Ended && r.currentIndex == n - 1)
    decreases k
  {
    if k > 0 {
      var n := |s.quiz.value.questions|;
      var s1 := Advance(s, ws, data, token, open).store;
      if s.currentIndex + 1 >= n {
        assert s1 == s.(state := Ended);
        AdvancesAfterEnd(s1, k - 1, ws, data, token, open);
      } else {
        assert s1.state == Asking && s1.currentIndex == s.currentIndex + 1 && s1.answers == map[];
        AdvancesFrom(s1, k - 1, ws, data, token, open);
      }
    }
  }

  /**
   * After a quiz of `n` questions is loaded, the `k`-th authorized advance
   * (1 <= k <= n) opens question `k - 1` with an empty ledger, the `n+1`-th
   * ends the session, and every later one is rejected with "Session has
   * ended." and changes nothing.
   */
  lemma AdvanceFromReset(s: Store, quiz: Quiz, k: nat, ws: ConnId, data: Json, token: string, open: set<ConnId>)
    requires Inv(s) && RequireTeacher(data, token)
    ensures var s0 := Reset(s, quiz);
            var n := |quiz.questions|;
            var r := Advances(s0, k, ws, data, token, open);
            && (1 <= k <= n ==> r.state == Asking && r.currentIndex == k - 1 && r.answers == map[])
            && (k == n + 1 ==> r.state == Ended && r.currentIndex == n - 1)
            && (k > n ==> r == Advances(s0, n + 1, ws, data, token, open))
            && (k > n ==> Advance(r, ws, data, token, open) == Effect(r, SafeSend(ws, open, Error(SessionEnded))))
  {
    var s0 := Reset(s, quiz);
    var n := |quiz.questions|;
    AdvancesFrom(s0, k, ws, data, token, open);
    if k > n {
      AdvancesFrom(s0, n + 1, ws, data, token, open);
      var e := Advances(s0, n + 1, ws, data, token, open);
      AdvancesSplit(s0, n + 1, k - (n + 1), ws, data, token, open);
      AdvancesAfterEnd(e, k - (n + 1), ws, data, token, open);
    }
  }

  /** `i + j` advances are `i` advances followed by `j` more. */
  lemma {:induction false} AdvancesSplit(s: Store, i: nat, j: nat, ws: ConnId, data: Json, token: string, open: set<ConnId>)
    requires Inv(s)
    ensures Advances(s, i + j, ws, data, token, open)
            == Advances(Advances(s, i, ws, data, token, open), j, ws, data, token, open)
    decreases i
  {
    if i > 0 {
      AdvancesSplit(Advance(s, ws, data, token, open).store, i - 1, j, ws, data, token, open);
    }
  }

  /**
   * A participant whose answer was recorded cannot answer the same question
   * again: the second submission is refused with "Answer already submitted."
   * and leaves the store as the first one left it.
   */
  lemma SecondSubmissionRejected(s: Store, ws: ConnId, data: Json, open: set<ConnId>, now: Timestamp,
                                 ws2: ConnId, data2: Json, now2: Timestamp)
    requires Inv(s) && Accepts(s, data)
    requires StringField(data2, "participantId") == StringField(data, "participantId")
    ensures var s1 := Submit(s, ws, data, open, now).store;
            var e := Submit(s1, ws2, data2, open, now2);
            && !Accepts(s1, data2)
            && e.store == s1
            && e.sent == SafeSend(ws2, open, Error(AlreadySubmitted))
  {
  }

  /**
   * Once the teacher moves on to another question, a participant who
   * answered the previous one may answer again.
   */
  lemma ResubmitAfterAdvance(s: Store, ws: ConnId, data: Json, open: set<ConnId>, now: Timestamp,
                             tws: ConnId, tdata: Json, token: string)
    requires Inv(s) && Accepts(s, data) && RequireTeacher(tdata, token)
    requires s.currentIndex + 1 < |s.quiz.value.questions|
    requires AnswerIndexOf(data).value < |s.quiz.value.questions[s.currentIndex + 1].options|
    ensures var s1 := Submit(s, ws, data, open, now).store;
            var s2 := Advance(s1, tws, tdata, token, open).store;
            Accepts(s2, data)
  {
  }

  /**
   * A teacher request without the configured token changes neither the
   * state, the cursor, the quiz, the ledger nor the registry, whichever of
   * lock, next and end it asks for, and is answered with an error only.
   */
  lemma TeacherGuard(s: Store, ws: ConnId, data: Json, token: string, open: set<ConnId>)
    requires Inv(s) && !RequireTeacher(data, token)
    ensures Lock(s, ws, data, token, open).store == s
    ensures Advance(s, ws, data, token, open).store == s
    ensures End(s, ws, data, token, open).store == s
    ensures Lock(s, ws, data, token, open).sent == SafeSend(ws, open, Error(Unauthorized))
    ensures Advance(s, ws, data, token, open).sent == SafeSend(ws, open, Error(Unauthorized))
    ensures End(s, ws, data, token, open).sent == SafeSend(ws, open, Error(Unauthorized))
  {
  }

  /**
   * Ending a session before any quiz is loaded leaves a store with no quiz
   * whose state is "ended", not "waiting".
   */
  lemma EndWithoutQuiz(ws: ConnId, data: Json, token: string, open: set<ConnId>)
    requires RequireTeacher(data, token)
    ensures var r := End(CreateStore(), ws, data, token, open).store;
            r.quiz.None? && r.state == Ended && r.currentIndex == -1
  {
  }
}
