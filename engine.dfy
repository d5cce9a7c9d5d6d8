/**
 * The live store and the handlers that update it in place, each proved to
 * leave the store and send exactly what the matching function of `Business`
 * describes. The management route that loads a quiz is mirrored by
 * `StartSession`.
 */
module Engine {
  import opened Wrappers
  import opened Js
  import opened QuizFormat
  import opened Persistence
  import opened Business

  /** The reply of the quiz-loading route. */
  datatype StartReply =
    | NotAuthorized
    | Rejected(error: string)
    | Started(state: string, questionCount: nat)

  class SessionStore {
    var state: Phase
    var quiz: Option<Quiz>
    var currentIndex: int
    var order: seq<ParticipantId>
    var participants: map<ParticipantId, Participant>
    var answers: map<ParticipantId, Answer>

    /** The store's current value. */
    function Snapshot(): Store
      reads this
    {
      Store(state, quiz, currentIndex, order, participants, answers)
    }

    ghost predicate Valid()
      reads this
    {
      Inv(Snapshot())
    }

    /** `createStore` */
    constructor ()
      ensures Valid() && Snapshot() == CreateStore()
    {
      state := Waiting;
      quiz := None;
      currentIndex := -1;
      order := [];
      participants := map[];
      answers := map[];
    }

    /** `resetSession` */
    method ResetSession(q: Quiz)
      requires Valid()
      modifies this
      ensures Valid() && Snapshot() == Reset(old(Snapshot()), q)
    {
      state := Waiting;
      quiz := Some(q);
      currentIndex := -1;
      answers := map[];
    }

    /** `broadcast`: walks the registry in order and sends to every receiving participant. */
    method Broadcast(open: set<ConnId>, except: Option<ConnId>, msg: Msg) returns (sent: seq<Delivery>)
      requires Valid()
      ensures sent == Fanout(order, participants, open, except, msg)
    {
      sent := [];
      var k := 0;
      while k < |order|
        invariant 0 <= k <= |order|
        invariant sent == Fanout(order[..k], participants, open, except, msg)
      {
        var p := participants[order[k]];
        if p.ws.Some? && Some(p.ws.value) != except && p.ws.value in open {
          sent := sent + [Delivery(p.ws.value, msg)];
        }
        assert order[..k + 1][..k] == order[..k];
        k := k + 1;
      }
      assert order[..k] == order;
    }

    /** `handleJoin`; `newId` is the value the id generator returns. */
    method HandleJoin(ws: ConnId, data: Json, open: set<ConnId>, now: Timestamp, newId: ParticipantId)
      returns (sent: seq<Delivery>)
      requires Valid()
      modifies this
      ensures Snapshot() == Join(old(Snapshot()), ws, data, open, now, newId).store
      ensures sent == Join(old(Snapshot()), ws, data, open, now, newId).sent
      ensures Valid()
    {
      var name := JoinName(data);
      if name == "" {
        sent := SafeSend(ws, open, Error(NameRequired));
        return;
      }
      var participantId := StringField(data, "participantId");
      var id: ParticipantId;
      if participantId.Some? && participantId.value != "" && participantId.value in participants {
        id := participantId.value;
        participants := participants[id := participants[id].(ws := Some(ws), connectedAt := now)];
      } else {
        id := newId;
        if id !in participants {
          order := order + [id];
        }
        participants := participants[id := Participant(name, Some(ws), now)];
      }
      sent := SafeSend(ws, open, Joined(id, state.Name(), CurrentQuestion(Snapshot())));
    }

    /** `handleSubmitAnswer` */
    method HandleSubmitAnswer(ws: ConnId, data: Json, open: set<ConnId>, now: Timestamp)
      returns (sent: seq<Delivery>)
      requires Valid()
      modifies this
      ensures Snapshot() == Submit(old(Snapshot()), ws, data, open, now).store
      ensures sent == Submit(old(Snapshot()), ws, data, open, now).sent
      ensures Valid()
    {
      if state != Asking {
        sent := SafeSend(ws, open, Error(QuestionNotOpen));
        return;
      }
      var participantId := StringField(data, "participantId");
      if participantId.None? || participantId.value == "" || participantId.value !in participants {
        sent := SafeSend(ws, open, Error(InvalidParticipant));
        return;
      }
      var pid := participantId.value;
      if pid in answers {
        sent := SafeSend(ws, open, Error(AlreadySubmitted));
        return;
      }
      var answerIndex := AnswerIndexOf(data);
      var question := CurrentQuestion(Snapshot());
      if question.None? {
        sent := SafeSend(ws, open, Error(NoActiveQuestion));
        return;
      }
      if answerIndex.None? || answerIndex.value < 0 || answerIndex.value >= |question.value.options| {
        sent := SafeSend(ws, open, Error(InvalidAnswerIndex));
        return;
      }
      answers := answers[pid := Answer(answerIndex.value, now)];
      sent := SafeSend(ws, open, AnswerAccepted(pid, answerIndex.value));
    }

    /** `handleLockQuestion` */
    method HandleLockQuestion(ws: ConnId, data: Json, token: string, open: set<ConnId>)
      returns (sent: seq<Delivery>)
      requires Valid()
      modifies this
      ensures Snapshot() == Lock(old(Snapshot()), ws, data, token, open).store
      ensures sent == Lock(old(Snapshot()), ws, data, token, open).sent
      ensures Valid()
    {
      if !RequireTeacher(data, token) {
        sent := SafeSend(ws, open, Error(Unauthorized));
        return;
      }
      if state != Asking {
        sent := SafeSend(ws, open, Error(NoOpenQuestion));
        return;
      }
      state := Locked;
      sent := Broadcast(open, None, StateChanged(state.Name()));
    }

    /** `handleNextQuestion` */
    method HandleNextQuestion(ws: ConnId, data: Json, token: string, open: set<ConnId>)
      returns (sent: seq<Delivery>)
      requires Valid()
      modifies this
      ensures Snapshot() == Advance(old(Snapshot()), ws, data, token, open).store
      ensures sent == Advance(old(Snapshot()), ws, data, token, open).sent
      ensures Valid()
    {
      if !RequireTeacher(data, token) {
        sent := SafeSend(ws, open, Error(Unauthorized));
        return;
      }
      if quiz.None? {
        sent := SafeSend(ws, open, Error(NoQuizLoaded));
        return;
      }
      if state == Ended {
        sent := SafeSend(ws, open, Error(SessionEnded));
        return;
      }
      var nextIndex := currentIndex + 1;
      if nextIndex >= |quiz.value.questions| {
        state := Ended;
        sent := Broadcast(open, None, StateChanged(state.Name()));
        return;
      }
      currentIndex := nextIndex;
      state := Asking;
      answers := map[];
      sent := Broadcast(open, None, QuestionShown(CurrentQuestion(Snapshot()), state.Name()));
    }

    /** `handleEndSession` */
    method HandleEndSession(ws: ConnId, data: Json, token: string, open: set<ConnId>)
      returns (sent: seq<Delivery>)
      requires Valid()
      modifies this
      ensures Snapshot() == End(old(Snapshot()), ws, data, token, open).store
      ensures sent == End(old(Snapshot()), ws, data, token, open).sent
      ensures Valid()
    {
      if !RequireTeacher(data, token) {
        sent := SafeSend(ws, open, Error(Unauthorized));
        return;
      }
      state := Ended;
      sent := Broadcast(open, None, StateChanged(state.Name()));
    }

    /** `detachParticipant`: clears the connection of the first participant bound to `ws`. */
    method DetachParticipant(ws: ConnId)
      requires Valid()
      modifies this
      ensures Valid() && Snapshot() == Detach(old(Snapshot()), ws)
    {
      var k := 0;
      while k < |order|
        invariant 0 <= k <= |order|
        invariant Snapshot() == old(Snapshot())
        invariant forall j :: 0 <= j < k ==> participants[order[j]].ws != Some(ws)
      {
        var id := order[k];
        if participants[id].ws == Some(ws) {
          assert FirstBound(order, participants, ws) == Some(k);
          participants := participants[id := participants[id].(ws := None)];
          break;
        }
        k := k + 1;
      }
    }

    /**
     * The quiz-loading route: the `Authorization` header must be the bearer
     * token, then the body must pass `validateQuiz`; only then is the session
     * reset to the new quiz.
     */
    method StartSession(authorization: string, body: Json, token: string) returns (reply: StartReply)
      requires Valid()
      modifies this
      ensures Valid()
      ensures reply.NotAuthorized? <==> authorization != "Bearer " + token
      ensures reply.Started? <==> authorization == "Bearer " + token && WellFormedQuiz(body)
      ensures reply.Started? ==>
                Snapshot() == Reset(old(Snapshot()), ToQuiz(body))
                && reply == Started(Waiting.Name(), |QuestionsOf(body)|)
      ensures !reply.Started? ==> Snapshot() == old(Snapshot())
    {
      if authorization != "Bearer " + token {
        return NotAuthorized;
      }
      var err := ValidateQuiz(body);
      if err.Some? {
        return Rejected(Message(err.value));
      }
      ResetSession(ToQuiz(body));
      return Started(state.Name(), |quiz.value.questions|);
    }
  }
}
