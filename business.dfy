/**
 * The session engine's handlers as functions from the store before an event
 * to the store after it and the messages sent. Sending is modelled as the
 * list of deliveries made; a connection is open when it is in `open`.
 */
module Business {
  import opened Wrappers
  import opened Js
  import opened QuizFormat
  import opened Persistence

  /** What clients are shown of a question: never its `correctIndex`. */
  datatype QuestionView = QuestionView(index: int, text: string, options: seq<string>)

  /** Outbound payloads; a state travels as its wire name (`Phase.Name`). */
  datatype Msg =
    | Error(message: string)
    | Joined(participantId: ParticipantId, state: string, question: Option<QuestionView>)
    | AnswerAccepted(participantId: ParticipantId, answerIndex: int)
    | StateChanged(state: string)
    | QuestionShown(question: Option<QuestionView>, state: string)

  /** One `ws.send` of one payload. */
  datatype Delivery = Delivery(to: ConnId, msg: Msg)

  /** A handler's outcome: the store afterwards and what was sent, in order. */
  datatype Effect = Effect(store: Store, sent: seq<Delivery>)

  const NameRequired := "Name is required."
  const QuestionNotOpen := "Question is not open."
  const InvalidParticipant := "Invalid participant."
  const AlreadySubmitted := "Answer already submitted."
  const NoActiveQuestion := "No active question."
  const InvalidAnswerIndex := "Invalid answer index."
  const Unauthorized := "Unauthorized teacher action."
  const NoOpenQuestion := "No open question to lock."
  const NoQuizLoaded := "No quiz loaded."
  const SessionEnded := "Session has ended."

  /** `safeSend`: one delivery exactly when the connection is open, none otherwise. */
  function SafeSend(ws: ConnId, open: set<ConnId>, msg: Msg): (r: seq<Delivery>)
    ensures |r| <= 1
    ensures r != [] <==> ws in open
    ensures forall d :: d in r ==> d == Delivery(ws, msg)
  {
    if ws in open then [Delivery(ws, msg)] else []
  }

  /** A participant `broadcast` sends to: connected, open, and not the excluded connection. */
  predicate Receives(p: Participant, open: set<ConnId>, except: Option<ConnId>)
  {
    p.ws.Some? && Some(p.ws.value) != except && p.ws.value in open
  }

  /**
   * `broadcast` over the registry entries listed in `order`: one delivery of
   * `msg` per receiving participant, in registry order.
   */
  function Fanout(order: seq<ParticipantId>, participants: map<ParticipantId, Participant>,
                  open: set<ConnId>, except: Option<ConnId>, msg: Msg): (r: seq<Delivery>)
    requires forall k :: 0 <= k < |order| ==> order[k] in participants
    ensures |r| <= |order|
    ensures forall d :: d in r ==> d.msg == msg && d.to in open && Some(d.to) != except
  {
    if order == [] then []
    else
      var last := participants[order[|order| - 1]];
      Fanout(order[..|order| - 1], participants, open, except, msg)
        + (if Receives(last, open, except) then [Delivery(last.ws.value, msg)] else [])
  }

  /** Broadcasting over two consecutive stretches of the registry sends to the first stretch first. */
  lemma {:induction false} FanoutAppend(a: seq<ParticipantId>, b: seq<ParticipantId>,
                                        participants: map<ParticipantId, Participant>,
                                        open: set<ConnId>, except: Option<ConnId>, msg: Msg)
    requires forall k :: 0 <= k < |a| ==> a[k] in participants
    requires forall k :: 0 <= k < |b| ==> b[k] in participants
    ensures Fanout(a + b, participants, open, except, msg)
            == Fanout(a, participants, open, except, msg) + Fanout(b, participants, open, except, msg)
    decreases |b|
  {
    if b == [] {
      assert a + b == a;
    } else {
      var b' := b[..|b| - 1];
      assert (a + b)[..|a + b| - 1] == a + b';
      assert (a + b)[|a + b| - 1] == b[|b| - 1];
      FanoutAppend(a, b', participants, open, except, msg);
    }
  }

  /**
   * A connection receives the broadcast exactly when some participant in the
   * registry is bound to it and receives.
   */
  lemma {:induction false} FanoutReaches(order: seq<ParticipantId>, participants: map<ParticipantId, Participant>,
                                         open: set<ConnId>, except: Option<ConnId>, msg: Msg, c: ConnId)
    requires forall k :: 0 <= k < |order| ==> order[k] in participants
    ensures Delivery(c, msg) in Fanout(order, participants, open, except, msg)
            <==> exists k :: 0 <= k < |order| && participants[order[k]].ws == Some(c)
                             && Receives(participants[order[k]], open, except)
    decreases |order|
  {
    if order != [] {
      var init := order[..|order| - 1];
      FanoutReaches(init, participants, open, except, msg, c);
      if exists k :: 0 <= k < |init| && participants[init[k]].ws == Some(c) && Receives(participants[init[k]], open, except) {
        var k :| 0 <= k < |init| && participants[init[k]].ws == Some(c) && Receives(participants[init[k]], open, except);
        assert order[k] == init[k];
      }
      if exists k :: 0 <= k < |order| && participants[order[k]].ws == Some(c) && Receives(participants[order[k]], open, except) {
        var k :| 0 <= k < |order| && participants[order[k]].ws == Some(c) && Receives(participants[order[k]], open, except);
        if k < |init| {
          assert init[k] == order[k];
        }
      }
    }
  }

  /** `broadcast(store, msg)` */
  function Broadcast(s: Store, open: set<ConnId>, msg: Msg): (r: seq<Delivery>)
    requires Inv(s)
    ensures |r| <= |s.order|
    ensures forall d :: d in r ==> d.msg == msg && d.to in open
    ensures forall c :: Delivery(c, msg) in r <==>
              c in open && exists id :: id in s.participants && s.participants[id].ws == Some(c)
  {
    assert forall c :: Delivery(c, msg) in Fanout(s.order, s.participants, open, None, msg) <==>
                       c in open && exists id :: id in s.participants && s.participants[id].ws == Some(c) by {
      forall c
        ensures Delivery(c, msg) in Fanout(s.order, s.participants, open, None, msg) <==>
                c in open && exists id :: id in s.participants && s.participants[id].ws == Some(c)
      {
        FanoutReaches(s.order, s.participants, open, None, msg, c);
        if c in open && exists id :: id in s.participants && s.participants[id].ws == Some(c) {
          var id :| id in s.participants && s.participants[id].ws == Some(c);
          var k :| 0 <= k < |s.order| && s.order[k] == id;
          assert Receives(s.participants[s.order[k]], open, None);
        }
      }
    }
    Fanout(s.order, s.participants, open, None, msg)
  }

  /**
   * `getCurrentQuestion`: the active question's projection when the cursor
   * names a question of the loaded quiz, and none otherwise; while a question
   * is open or locked there always is one.
   */
  function CurrentQuestion(s: Store): (r: Option<QuestionView>)
    ensures r.Some? <==> s.quiz.Some? && 0 <= s.currentIndex < |s.quiz.value.questions|
    ensures r.Some? ==>
              && r.value.index == s.currentIndex
              && r.value.text == s.quiz.value.questions[s.currentIndex].text
              && r.value.options == s.quiz.value.questions[s.currentIndex].options
    ensures Inv(s) && (s.state == Asking || s.state == Locked) ==> r.Some?
  {
    if s.quiz.None? then None
    else if s.currentIndex < 0 || s.currentIndex >= |s.quiz.value.questions| then None
    else
      var q := s.quiz.value.questions[s.currentIndex];
      Some(QuestionView(s.currentIndex, q.text, q.options))
  }

  /**
   * `resetSession`: a new quiz, waiting, no cursor and an empty ledger; the
   * registry is kept as it is.
   */
  function Reset(s: Store, quiz: Quiz): (r: Store)
    ensures r.state == Waiting && r.quiz == Some(quiz) && r.currentIndex == -1 && r.answers == map[]
    ensures r.order == s.order && r.participants == s.participants
    ensures Inv(s) ==> Inv(r)
    ensures CurrentQuestion(r).None?
  {
    s.(state := Waiting, quiz := Some(quiz), currentIndex := -1, answers := map[])
  }

  /** The trimmed `name` field of a join request, or "" when it is not a string. */
  function JoinName(data: Json): string
  {
    match StringField(data, "name")
    case Some(n) => Trim(n)
    case None => ""
  }

  /**
   * The name is blank exactly when the field is missing, is not a string, or
   * holds only whitespace; a name that is kept neither starts nor ends with
   * whitespace.
   */
  lemma JoinNameSpec(data: Json)
    ensures var n := StringField(data, "name");
            JoinName(data) == "" <==> n.None? || forall i :: 0 <= i < |n.value| ==> IsWhitespace(n.value[i])
    ensures var r := JoinName(data);
            r != "" ==> !IsWhitespace(r[0]) && !IsWhitespace(r[|r| - 1])
  {
    var n := StringField(data, "name");
    if n.Some? {
      TrimSpec(n.value);
    }
  }

  /** The join request names a participant already in the registry. */
  predicate KnownId(s: Store, data: Json)
  {
    var pid := StringField(data, "participantId");
    pid.Some? && pid.value != "" && pid.value in s.participants
  }

  /**
   * `handleJoin`: a blank name changes nothing; a known id keeps its entry,
   * name and position and only gets the new connection and timestamp; any
   * other request stores a new entry under `newId`, which joins the end of
   * the registry unless the generator repeated an id already registered, in
   * which case that entry is overwritten where it stands.
   */
  function Join(s: Store, ws: ConnId, data: Json, open: set<ConnId>, now: Timestamp, newId: ParticipantId): (e: Effect)
    requires Inv(s)
    ensures Inv(e.store)
    ensures e.store.(order := s.order, participants := s.participants) == s
    ensures JoinName(data) == "" ==> e.store == s && e.sent == SafeSend(ws, open, Error(NameRequired))
    ensures JoinName(data) != "" && KnownId(s, data) ==>
              var id := StringField(data, "participantId").value;
              && e.store.order == s.order
              && e.store.participants.Keys == s.participants.Keys
              && |e.store.participants| == |s.participants|
              && e.store.participants[id].name == s.participants[id].name
              && e.store.participants[id] == s.participants[id].(ws := Some(ws), connectedAt := now)
              && (forall other :: other in s.participants && other != id ==>
                    e.store.participants[other] == s.participants[other])
              && e.sent == SafeSend(ws, open, Joined(id, s.state.Name(), CurrentQuestion(s)))
    ensures JoinName(data) != "" && !KnownId(s, data) ==>
              && e.store.participants == s.participants[newId := Participant(JoinName(data), Some(ws), now)]
              && (newId !in s.participants ==>
                    e.store.order == s.order + [newId] && |e.store.participants| == |s.participants| + 1)
              && (newId in s.participants ==> e.store.order == s.order)
              && e.sent == SafeSend(ws, open, Joined(newId, s.state.Name(), CurrentQuestion(s)))
  {
    var name := JoinName(data);
    if name == "" then Effect(s, SafeSend(ws, open, Error(NameRequired)))
    else if KnownId(s, data) then
      var id := StringField(data, "participantId").value;
      var s' := s.(participants := s.participants[id := s.participants[id].(ws := Some(ws), connectedAt := now)]);
      Effect(s', SafeSend(ws, open, Joined(id, s'.state.Name(), CurrentQuestion(s'))))
    else
      var s' := s.(order := if newId in s.participants then s.order else s.order + [newId],
                   participants := s.participants[newId := Participant(name, Some(ws), now)]);
      Effect(s', SafeSend(ws, open, Joined(newId, s'.state.Name(), CurrentQuestion(s'))))
  }

  /** `answerIndex` when it is an integer (`Number.isInteger`), else none. */
  function AnswerIndexOf(data: Json): Option<int>
  {
    match Get(data, "answerIndex")
    case Some(v) => if IsInteger(v) then Some(v.n.Floor) else None
    case None => None
  }

  /**
   * Everything a submission must satisfy to be recorded: a question is open,
   * the id is registered, it has not answered yet, the cursor names a
   * question, and the answer is an integer index into its options.
   */
  predicate Accepts(s: Store, data: Json)
  {
    && s.state == Asking
    && KnownId(s, data)
    && StringField(data, "participantId").value !in s.answers
    && CurrentQuestion(s).Some?
    && AnswerIndexOf(data).Some?
    && 0 <= AnswerIndexOf(data).value < |CurrentQuestion(s).value.options|
  }

  /**
   * `handleSubmitAnswer`: an accepted submission adds exactly its own entry
   * to the ledger; any other leaves the store as it was and answers the
   * sender with an error, a repeated one with "Answer already submitted.".
   */
  function Submit(s: Store, ws: ConnId, data: Json, open: set<ConnId>, now: Timestamp): (e: Effect)
    requires Inv(s)
    ensures Inv(e.store)
    ensures e.store.(answers := s.answers) == s
    ensures Accepts(s, data) ==>
              var pid, idx := StringField(data, "participantId").value, AnswerIndexOf(data).value;
              && pid !in s.answers
              && e.store.answers == s.answers[pid := Answer(idx, now)]
              && |e.store.answers| == |s.answers| + 1
              && e.sent == SafeSend(ws, open, AnswerAccepted(pid, idx))
    ensures !Accepts(s, data) ==>
              && e.store == s
              && |e.sent| == (if ws in open then 1 else 0)
              && forall d :: d in e.sent ==> d.to == ws && d.msg.Error?
    ensures s.state != Asking ==> e.sent == SafeSend(ws, open, Error(QuestionNotOpen))
    ensures s.state == Asking && !KnownId(s, data) ==> e.sent == SafeSend(ws, open, Error(InvalidParticipant))
    ensures s.state == Asking && KnownId(s, data) && StringField(data, "participantId").value in s.answers ==>
              e.sent == SafeSend(ws, open, Error(AlreadySubmitted))
    ensures s.state == Asking && KnownId(s, data) && StringField(data, "participantId").value !in s.answers
            && !Accepts(s, data) ==>
              e.sent == SafeSend(ws, open, Error(InvalidAnswerIndex))
    ensures ws in open ==> e.sent != [Delivery(ws, Error(NoActiveQuestion))]
  {
    if s.state != Asking then Effect(s, SafeSend(ws, open, Error(QuestionNotOpen)))
    else if !KnownId(s, data) then Effect(s, SafeSend(ws, open, Error(InvalidParticipant)))
    else
      var pid := StringField(data, "participantId").value;
      if pid in s.answers then Effect(s, SafeSend(ws, open, Error(AlreadySubmitted)))
      else
        var question := CurrentQuestion(s);
        if question.None? then Effect(s, SafeSend(ws, open, Error(NoActiveQuestion)))
        else
          var answerIndex := AnswerIndexOf(data);
          if answerIndex.None? || answerIndex.value < 0 || answerIndex.value >= |question.value.options| then
            Effect(s, SafeSend(ws, open, Error(InvalidAnswerIndex)))
          else
            Effect(s.(answers := s.answers[pid := Answer(answerIndex.value, now)]),
                   SafeSend(ws, open, AnswerAccepted(pid, answerIndex.value)))
  }

  /** `requireTeacher`: the request carries the configured token as its `teacherToken` string. */
  predicate RequireTeacher(data: Json, token: string)
  {
    Get(data, "teacherToken") == Some(JStr(token))
  }

  /**
   * `handleLockQuestion`: only an authorized request on an open question
   * changes anything, and then only the state, to locked.
   */
  function Lock(s: Store, ws: ConnId, data: Json, token: string, open: set<ConnId>): (e: Effect)
    requires Inv(s)
    ensures Inv(e.store)
    ensures !RequireTeacher(data, token) ==> e.store == s && e.sent == SafeSend(ws, open, Error(Unauthorized))
    ensures RequireTeacher(data, token) && s.state != Asking ==>
              e.store == s && e.sent == SafeSend(ws, open, Error(NoOpenQuestion))
    ensures RequireTeacher(data, token) && s.state == Asking ==>
              e.store == s.(state := Locked) && e.sent == Broadcast(s, open, StateChanged(Locked.Name()))
  {
    if !RequireTeacher(data, token) then Effect(s, SafeSend(ws, open, Error(Unauthorized)))
    else if s.state != Asking then Effect(s, SafeSend(ws, open, Error(NoOpenQuestion)))
    else
      var s' := s.(state := Locked);
      Effect(s', Broadcast(s', open, StateChanged(s'.state.Name())))
  }

  /**
   * `handleNextQuestion`: without authorization, without a quiz, or once
   * ended nothing changes; past the last question the session ends with the
   * cursor and ledger kept; otherwise the next question opens with an empty
   * ledger.
   */
  function Advance(s: Store, ws: ConnId, data: Json, token: string, open: set<ConnId>): (e: Effect)
    requires Inv(s)
    ensures Inv(e.store)
    ensures !RequireTeacher(data, token) ==> e.store == s && e.sent == SafeSend(ws, open, Error(Unauthorized))
    ensures RequireTeacher(data, token) && s.quiz.None? ==>
              e.store == s && e.sent == SafeSend(ws, open, Error(NoQuizLoaded))
    ensures RequireTeacher(data, token) && s.quiz.Some? && s.state == Ended ==>
              e.store == s && e.sent == SafeSend(ws, open, Error(SessionEnded))
    ensures RequireTeacher(data, token) && s.quiz.Some? && s.state != Ended
            && s.currentIndex + 1 >= |s.quiz.value.questions| ==>
              e.store == s.(state := Ended) && e.sent == Broadcast(s, open, StateChanged(Ended.Name()))
    ensures RequireTeacher(data, token) && s.quiz.Some? && s.state != Ended
            && s.currentIndex + 1 < |s.quiz.value.questions| ==>
              && e.store == s.(state := Asking, currentIndex := s.currentIndex + 1, answers := map[])
              && CurrentQuestion(e.store).Some?
              && CurrentQuestion(e.store).value.index == s.currentIndex + 1
              && e.sent == Broadcast(s, open, QuestionShown(CurrentQuestion(e.store), Asking.Name()))
  {
    if !RequireTeacher(data, token) then Effect(s, SafeSend(ws, open, Error(Unauthorized)))
    else if s.quiz.None? then Effect(s, SafeSend(ws, open, Error(NoQuizLoaded)))
    else if s.state == Ended then Effect(s, SafeSend(ws, open, Error(SessionEnded)))
    else
      var nextIndex := s.currentIndex + 1;
      if nextIndex >= |s.quiz.value.questions| then
        var s' := s.(state := Ended);
        Effect(s', Broadcast(s', open, StateChanged(s'.state.Name())))
      else
        var s' := s.(currentIndex := nextIndex, state := Asking, answers := map[]);
        Effect(s', Broadcast(s', open, QuestionShown(CurrentQuestion(s'), s'.state.Name())))
  }

  /**
   * `handleEndSession`: an authorized request ends the session from any
   * state, leaving the cursor and the ledger as they were.
   */
  function End(s: Store, ws: ConnId, data: Json, token: string, open: set<ConnId>): (e: Effect)
    requires Inv(s)
    ensures Inv(e.store)
    ensures !RequireTeacher(data, token) ==> e.store == s && e.sent == SafeSend(ws, open, Error(Unauthorized))
    ensures RequireTeacher(data, token) ==>
              e.store == s.(state := Ended) && e.sent == Broadcast(s, open, StateChanged(Ended.Name()))
  {
    if !RequireTeacher(data, token) then Effect(s, SafeSend(ws, open, Error(Unauthorized)))
    else
      var s' := s.(state := Ended);
      Effect(s', Broadcast(s', open, StateChanged(s'.state.Name())))
  }

  /**
   * The position of the first participant, in registry order, bound to
   * connection `c`, if any.
   */
  function FirstBound(order: seq<ParticipantId>, participants: map<ParticipantId, Participant>, c: ConnId): (r: Option<nat>)
    requires forall k :: 0 <= k < |order| ==> order[k] in participants
    ensures r.Some? ==> r.value < |order| && participants[order[r.value]].ws == Some(c)
    ensures r.Some? ==> forall j :: 0 <= j < r.value ==> participants[order[j]].ws != Some(c)
    ensures r.None? ==> forall j :: 0 <= j < |order| ==> participants[order[j]].ws != Some(c)
  {
    if order == [] then None
    else if participants[order[0]].ws == Some(c) then Some(0)
    else
      match FirstBound(order[1..], participants, c)
      case None => None
      case Some(j) => Some(j + 1)
  }

  /**
   * `detachParticipant`: the first participant bound to `c` loses its
   * connection; ids, names, the other participants and everything else are
   * unchanged, and nothing changes when no participant is bound to `c`.
   */
  function Detach(s: Store, c: ConnId): (r: Store)
    requires Inv(s)
    ensures Inv(r)
    ensures r.(participants := s.participants) == s
    ensures r.participants.Keys == s.participants.Keys && |r.participants| == |s.participants|
    ensures forall id :: id in s.participants ==>
              r.participants[id].name == s.participants[id].name
              && r.participants[id].connectedAt == s.participants[id].connectedAt
    ensures forall a, b ::
              (a in s.participants && b in s.participants
               && r.participants[a] != s.participants[a] && r.participants[b] != s.participants[b]) ==> a == b
    ensures forall id :: id in s.participants && r.participants[id] != s.participants[id] ==>
              s.participants[id].ws == Some(c) && r.participants[id].ws == None
    ensures (forall id :: id in s.participants ==> s.participants[id].ws != Some(c)) ==> r == s
    ensures (exists id :: id in s.participants && s.participants[id].ws == Some(c)) ==>
              exists k :: 0 <= k < |s.order| && s.participants[s.order[k]].ws == Some(c)
                          && r.participants[s.order[k]].ws == None
                          && forall j :: 0 <= j < k ==> s.participants[s.order[j]].ws != Some(c)
  {
    match FirstBound(s.order, s.participants, c)
    case None => s
    case Some(k) =>
      var id := s.order[k];
      s.(participants := s.participants[id := s.participants[id].(ws := None)])
  }
}
