/**
 * The session store: its shape, the invariant every handler keeps, and the
 * empty store `createStore` returns at process start.
 */
module Persistence {
  import opened Wrappers
  import opened QuizFormat

  /** Identifier handed out to a participant; an opaque string. */
  type ParticipantId = string

  /** A WebSocket connection, identified by an opaque number assigned at accept time. */
  type ConnId = nat

  /** An ISO-8601 timestamp read from the clock; opaque to the engine. */
  type Timestamp = string

  /** The session's lifecycle state. */
  datatype Phase = Waiting | Asking | Locked | Ended
  {
    /** The state's name on the wire. */
    function Name(): string
    {
      match this
      case Waiting => "waiting"
      case Asking => "question"
      case Locked => "locked"
      case Ended => "ended"
    }
  }

  /** The four wire names are distinct, so a state on the wire names exactly one phase. */
  lemma NameInjective(p: Phase, q: Phase)
    ensures p.Name() == q.Name() ==> p == q
  {
    if p.Name() == q.Name() {
      assert |p.Name()| == |q.Name()|;
      assert p.Name()[0] == q.Name()[0];
    }
  }

  /** A registry entry; `ws` is `None` while the participant is disconnected. */
  datatype Participant = Participant(name: string, ws: Option<ConnId>, connectedAt: Timestamp)

  /** A ledger entry. */
  datatype Answer = Answer(answerIndex: int, answeredAt: Timestamp)

  /**
   * The store. The participants `Map` keeps insertion order, so it is held as
   * the keys in that order (`order`) next to the entries (`participants`).
   */
  datatype Store = Store(
    state: Phase,
    quiz: Option<Quiz>,
    currentIndex: int,
    order: seq<ParticipantId>,
    participants: map<ParticipantId, Participant>,
    answers: map<ParticipantId, Answer>)

  /** `order` lists the registry's keys, each exactly once. */
  ghost predicate Registry(order: seq<ParticipantId>, participants: map<ParticipantId, Participant>)
  {
    && (forall i, j :: 0 <= i < j < |order| ==> order[i] != order[j])
    && (forall k :: 0 <= k < |order| ==> order[k] in participants)
    && (forall id :: id in participants ==> id in order)
  }

  /** Every recorded answer picks one of the question's options. */
  ghost predicate AnswersFit(answers: map<ParticipantId, Answer>, q: Question)
  {
    forall id :: id in answers ==> 0 <= answers[id].answerIndex < |q.options|
  }

  /**
   * The session invariant: without a quiz there is no cursor and the state is
   * waiting or ended; with one the cursor is -1 or a question index; while a
   * question is open or locked the cursor names a question; and the ledger
   * holds only registered participants' answers to the current question.
   */
  ghost predicate Inv(s: Store)
  {
    && Registry(s.order, s.participants)
    && (forall id :: id in s.answers ==> id in s.participants)
    && (s.quiz.None? ==> s.currentIndex == -1 && (s.state == Waiting || s.state == Ended))
    && (s.quiz.Some? ==> -1 <= s.currentIndex < |s.quiz.value.questions|)
    && ((s.state == Asking || s.state == Locked) ==> s.quiz.Some? && 0 <= s.currentIndex)
    && (s.answers != map[] ==>
          s.quiz.Some? && 0 <= s.currentIndex && AnswersFit(s.answers, s.quiz.value.questions[s.currentIndex]))
  }

  /**
   * `createStore`: the store a freshly started process holds. It has no quiz,
   * so it is waiting with cursor -1, and it satisfies the session invariant.
   */
  function CreateStore(): (s: Store)
    ensures s.state == Waiting && s.quiz == None && s.currentIndex == -1
    ensures s.order == [] && s.participants == map[] && s.answers == map[]
    ensures Inv(s)
  {
    Store(Waiting, None, -1, [], map[], map[])
  }
}
