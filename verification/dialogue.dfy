/** Sequences of inbound events handled one after another: plain text
    messages (each with the provider behaviour it will meet) and `/reset`
    commands. No handler yields to the event loop while it changes the
    store, so handlers act as atomic steps applied one after another. */
module Dialogue {
  import opened Turns
  import opened PySlice
  import opened Sessions

  /** Confirmation sent back for `/reset`. */
  const RESET_CONFIRMATION: string := "🧹 История диалога сброшена."

  /** One inbound update: a text message from `user`, or `/reset`. */
  datatype Event =
    | Text(user: UserId, text: string, outcome: Completion)
    | ResetCommand(user: UserId)

  /** The store after a run of events, and the reply sent for each event. */
  datatype Transcript = Transcript(store: Store, replies: seq<string>)

  /** The reply text an event's handler passes on: the provider's text,
      the fallback, or the reset confirmation. */
  function ReplyFor(e: Event): string
  {
    match e
    case Text(_, _, Succeeded(reply)) => reply
    case Text(_, _, Failed) => FALLBACK
    case ResetCommand(_) => RESET_CONFIRMATION
  }

  /** The store after handling one event. */
  function Handle(store: Store, e: Event): Store
  {
    match e
    case Text(u, m, o) => ChatWithGpt(store, u, m, o).store
    case ResetCommand(u) => Reset(store, u)
  }

  /** Handle the events in order. Each event yields exactly one reply text,
      the one its handler passes to the transport: the provider's text,
      the fallback, or the reset confirmation. */
  function Run(store: Store, events: seq<Event>): (t: Transcript)
    ensures |t.replies| == |events|
    ensures forall i :: 0 <= i < |events| ==> t.replies[i] == ReplyFor(events[i])
    decreases |events|
  {
    if events == [] then Transcript(store, [])
    else
      var reply := match events[0]
        case Text(u, m, o) => ChatWithGpt(store, u, m, o).reply
        case ResetCommand(_) => RESET_CONFIRMATION;
      var rest := Run(Handle(store, events[0]), events[1..]);
      Transcript(rest.store, [reply] + rest.replies)
  }

  /** Number of text messages from `u` among the events. */
  function MessagesFrom(events: seq<Event>, u: UserId): nat
  {
    if events == [] then 0
    else (if events[0].Text? && events[0].user == u then 1 else 0) + MessagesFrom(events[1..], u)
  }

  /** The texts of `u`'s messages among the events, in order. */
  function TextsFrom(events: seq<Event>, u: UserId): seq<string>
    decreases |events|
  {
    if events == [] then []
    else (if events[0].Text? && events[0].user == u then [events[0].text] else []) + TextsFrom(events[1..], u)
  }

  /** Every message `u` sends among the events meets a provider failure. */
  predicate AllFailed(events: seq<Event>, u: UserId)
  {
    forall i :: 0 <= i < |events| && events[i].Text? && events[i].user == u ==> events[i].outcome.Failed?
  }

  /** `u` sending each of `texts` in order, every provider call failing. */
  function FailedMessages(u: UserId, texts: seq<string>): (es: seq<Event>)
    ensures |es| == |texts|
  {
    if texts == [] then [] else [Text(u, texts[0], Failed)] + FailedMessages(u, texts[1..])
  }

  /** Every message `u` sends among the events is answered by the
      provider; other users' events and `/reset`s may be anything. */
  predicate AllAnswered(events: seq<Event>, u: UserId)
  {
    forall i :: 0 <= i < |events| && events[i].Text? && events[i].user == u ==> events[i].outcome.Succeeded?
  }

  /** The user turns recorded for `texts`, in order. */
  function UserTurns(texts: seq<string>): (ts: seq<Turn>)
    ensures |ts| == |texts|
    ensures forall i :: 0 <= i < |ts| ==> ts[i] == UserTurn(texts[i])
  {
    if texts == [] then [] else [UserTurn(texts[0])] + UserTurns(texts[1..])
  }

  /** What one event does to `u`'s history `h`: events of other users
      leave it alone, `/reset` empties it, and a message appends the user
      turn and, when the provider answered, the reply. */
  function Effect(h: seq<Turn>, e: Event, u: UserId): seq<Turn>
  {
    if e.user != u then h
    else match e
      case ResetCommand(_) => []
      case Text(_, m, Succeeded(reply)) => h + [UserTurn(m), AssistantTurn(reply)]
      case Text(_, m, Failed) => h + [UserTurn(m)]
  }

  /** `u`'s history after the events, computed from that history alone. */
  function HistoryAfter(h: seq<Turn>, events: seq<Event>, u: UserId): seq<Turn>
    decreases |events|
  {
    if events == [] then h else HistoryAfter(Effect(h, events[0], u), events[1..], u)
  }

  /** Handling an event changes `u`'s history exactly as `Effect` says, and
      an event of another user does not add or remove `u`'s entry. */
  lemma HandleEffect(store: Store, e: Event, u: UserId)
    ensures e.user != u ==> (u in Handle(store, e) <==> u in store)
    ensures HistoryOf(Handle(store, e), u) == Effect(HistoryOf(store, u), e, u)
  {
    match e
    case Text(w, m, o) =>
      if w != u {
        ChatKeepsOtherUsers(store, w, m, o, u);
      }
    case ResetCommand(w) =>
      if w != u {
        ResetKeepsOtherUsers(store, w, u);
      }
  }

  /** A non-empty run is its first event followed by the rest. */
  lemma RunUnfolds(store: Store, events: seq<Event>)
    requires events != []
    ensures Run(store, events).store == Run(Handle(store, events[0]), events[1..]).store
  {
  }

  /** Each user's history evolves on its own: after any run of events it is
      what that user's own events make of it, whatever the other users do. */
  lemma {:induction false} RunProjects(store: Store, events: seq<Event>, u: UserId)
    ensures HistoryOf(Run(store, events).store, u) == HistoryAfter(HistoryOf(store, u), events, u)
    decreases |events|
  {
    if events != [] {
      HandleEffect(store, events[0], u);
      RunUnfolds(store, events);
      RunProjects(Handle(store, events[0]), events[1..], u);
    }
  }

  /** A user none of the events comes from keeps exactly their history,
      and is in the store afterwards only if they were before. */
  lemma {:induction false} RunLeavesOthersUntouched(store: Store, events: seq<Event>, v: UserId)
    requires forall i :: 0 <= i < |events| ==> events[i].user != v
    ensures v in Run(store, events).store <==> v in store
    ensures HistoryOf(Run(store, events).store, v) == HistoryOf(store, v)
    decreases |events|
  {
    if events != [] {
      var s1 := Handle(store, events[0]);
      HandleEffect(store, events[0], v);
      RunUnfolds(store, events);
      assert forall i :: 0 <= i < |events[1..]| ==> events[1..][i].user != v by {
        forall i | 0 <= i < |events[1..]| ensures events[1..][i].user != v {
          assert events[1..][i] == events[i + 1];
        }
      }
      RunLeavesOthersUntouched(s1, events[1..], v);
    }
  }

  /** Without a `/reset` from `u`, `u`'s history only grows: every earlier
      turn stays in place, and each of `u`'s messages adds one or two
      turns. */
  lemma {:induction false} HistoryAfterOnlyAppends(h: seq<Turn>, events: seq<Event>, u: UserId)
    requires forall i :: 0 <= i < |events| ==> events[i] != ResetCommand(u)
    ensures var h' := HistoryAfter(h, events, u);
            && |h| + MessagesFrom(events, u) <= |h'| <= |h| + 2 * MessagesFrom(events, u)
            && forall i :: 0 <= i < |h| ==> h'[i] == h[i]
    decreases |events|
  {
    if events != [] {
      var h1 := Effect(h, events[0], u);
      assert forall i :: 0 <= i < |events[1..]| ==> events[1..][i] != ResetCommand(u) by {
        forall i | 0 <= i < |events[1..]| ensures events[1..][i] != ResetCommand(u) {
          assert events[1..][i] == events[i + 1];
        }
      }
      HistoryAfterOnlyAppends(h1, events[1..], u);
    }
  }

  /** The store-level form: the stored history is never trimmed. */
  lemma RunOnlyAppends(store: Store, events: seq<Event>, u: UserId)
    requires forall i :: 0 <= i < |events| ==> events[i] != ResetCommand(u)
    ensures var h := HistoryOf(store, u);
            var h' := HistoryOf(Run(store, events).store, u);
            && |h| + MessagesFrom(events, u) <= |h'| <= |h| + 2 * MessagesFrom(events, u)
            && forall i :: 0 <= i < |h| ==> h'[i] == h[i]
  {
    RunProjects(store, events, u);
    HistoryAfterOnlyAppends(HistoryOf(store, u), events, u);
  }

  /** A run made only of `u`'s messages, every call failing, appends
      exactly their user turns in order. */
  lemma {:induction false} HistoryAfterFailed(h: seq<Turn>, u: UserId, texts: seq<string>)
    ensures HistoryAfter(h, FailedMessages(u, texts), u) == h + UserTurns(texts)
    decreases |texts|
  {
    if texts == [] {
      assert h + [] == h;
    } else {
      var es := FailedMessages(u, texts);
      var t := [UserTurn(texts[0])];
      var rest := UserTurns(texts[1..]);
      calc {
        HistoryAfter(h, es, u);
        HistoryAfter(h + t, es[1..], u);
        { assert es[1..] == FailedMessages(u, texts[1..]); }
        HistoryAfter(h + t, FailedMessages(u, texts[1..]), u);
        { HistoryAfterFailed(h + t, u, texts[1..]); }
        (h + t) + rest;
        h + (t + rest);
      }
    }
  }

  /** The store-level form: a run made only of `u`'s messages, every call
      failing, appends exactly their user turns to `u`'s history. */
  lemma FailedRunKeepsUserTurns(store: Store, u: UserId, texts: seq<string>)
    ensures HistoryOf(Run(store, FailedMessages(u, texts)).store, u) == HistoryOf(store, u) + UserTurns(texts)
  {
    RunProjects(store, FailedMessages(u, texts), u);
    HistoryAfterFailed(HistoryOf(store, u), u, texts);
  }

  /** Dropping the first event keeps a run free of `/reset`s from `u` and
      of answered messages from `u`. */
  lemma AllFailedTail(events: seq<Event>, u: UserId)
    requires events != []
    requires AllFailed(events, u)
    requires forall i :: 0 <= i < |events| ==> events[i] != ResetCommand(u)
    ensures AllFailed(events[1..], u)
    ensures forall i :: 0 <= i < |events[1..]| ==> events[1..][i] != ResetCommand(u)
  {
    var rest := events[1..];
    forall i | 0 <= i < |rest| ensures rest[i] == events[i + 1] {
    }
  }

  /** One event of such a run, on the turns it appends: a failed message of
      `u` appends its user turn, anything else appends nothing. */
  lemma FailedStep(h: seq<Turn>, e: Event, u: UserId, later: seq<string>)
    requires e.Text? && e.user == u ==> e.outcome.Failed?
    requires e != ResetCommand(u)
    ensures var own := if e.Text? && e.user == u then [e.text] else [];
            Effect(h, e, u) + UserTurns(later) == h + UserTurns(own + later)
  {
    if e.Text? && e.user == u {
      var t := [UserTurn(e.text)];
      assert UserTurns([e.text] + later) == t + UserTurns(later) by {
        assert ([e.text] + later)[1..] == later;
      }
      assert (h + t) + UserTurns(later) == h + (t + UserTurns(later));
    } else {
      assert [] + later == later;
    }
  }

  /** Without a `/reset` from `u`, and with every one of `u`'s messages
      failing, `u`'s history gains exactly the user turns of those
      messages, in order, whatever the other users do. */
  lemma {:induction false} HistoryAfterAllFailed(h: seq<Turn>, events: seq<Event>, u: UserId)
    requires AllFailed(events, u)
    requires forall i :: 0 <= i < |events| ==> events[i] != ResetCommand(u)
    ensures HistoryAfter(h, events, u) == h + UserTurns(TextsFrom(events, u))
    decreases |events|
  {
    if events == [] {
      assert h + [] == h;
    } else {
      var rest := events[1..];
      AllFailedTail(events, u);
      HistoryAfterAllFailed(Effect(h, events[0], u), rest, u);
      FailedStep(h, events[0], u, TextsFrom(rest, u));
    }
  }

  /** The store-level form: when `u` sends no `/reset` and every one of
      `u`'s provider calls fails, `u`'s stored history gains exactly the
      user turns of `u`'s messages, in order, and nothing else. */
  lemma AllFailedRunAppendsUserTurns(store: Store, events: seq<Event>, u: UserId)
    requires AllFailed(events, u)
    requires forall i :: 0 <= i < |events| ==> events[i] != ResetCommand(u)
    ensures HistoryOf(Run(store, events).store, u) == HistoryOf(store, u) + UserTurns(TextsFrom(events, u))
  {
    RunProjects(store, events, u);
    HistoryAfterAllFailed(HistoryOf(store, u), events, u);
  }

  /** After at least MAX_HISTORY failed messages from a new user, the window
      holds exactly the last MAX_HISTORY messages in order; the earlier ones
      are never sent again. Other users may be in the store. */
  lemma ManyFailedMessagesWindow(store: Store, u: UserId, texts: seq<string>)
    requires u !in store
    requires |texts| >= MAX_HISTORY
    ensures var w := RecentWindow(Run(store, FailedMessages(u, texts)).store, u);
            && |w| == MAX_HISTORY
            && forall j :: 0 <= j < MAX_HISTORY ==> w[j] == UserTurn(texts[|texts| - MAX_HISTORY + j])
  {
    FailedRunKeepsUserTurns(store, u, texts);
    assert HistoryOf(Run(store, FailedMessages(u, texts)).store, u) == UserTurns(texts) by {
      assert [] + UserTurns(texts) == UserTurns(texts);
    }
    WindowOfUserTurns(texts);
  }

  /** The window of a history of user turns holds the last MAX_HISTORY
      messages. */
  lemma WindowOfUserTurns(texts: seq<string>)
    requires |texts| >= MAX_HISTORY
    ensures var w := Window(UserTurns(texts));
            && |w| == MAX_HISTORY
            && forall j :: 0 <= j < MAX_HISTORY ==> w[j] == UserTurn(texts[|texts| - MAX_HISTORY + j])
  {
    var h := UserTurns(texts);
    var w := Window(h);
    forall j | 0 <= j < MAX_HISTORY ensures w[j] == UserTurn(texts[|texts| - MAX_HISTORY + j]) {
      assert w[j] == h[|h| - MAX_HISTORY + j];
    }
  }

  /** Twenty-five failed messages: messages 5 to 24 (counting from 0) form
      the window and the first five are left out. */
  lemma TwentyFiveMessagesScenario(u: UserId, texts: seq<string>)
    requires |texts| == 25
    ensures var w := RecentWindow(Run(map[], FailedMessages(u, texts)).store, u);
            |w| == 20 && forall j :: 0 <= j < 20 ==> w[j] == UserTurn(texts[5 + j])
  {
    ManyFailedMessagesWindow(map[], u, texts);
  }

  /** Appending a user turn and its answer to an alternating history of
      even length keeps it alternating. */
  lemma ExchangeKeepsAlternation(h: seq<Turn>, message: string, reply: string)
    requires Alternating(h) && |h| % 2 == 0
    ensures Alternating(h + [UserTurn(message), AssistantTurn(reply)])
  {
    var h1 := h + [UserTurn(message), AssistantTurn(reply)];
    forall i | 0 <= i < |h1|
      ensures h1[i].role == (if i % 2 == 0 then User else Assistant)
    {
      if i < |h| {
        assert h1[i] == h[i];
      }
    }
  }

  /** As long as every message of `u` is answered, an alternating history
      of even length stays alternating and of even length: an answered
      message adds a user turn and its reply, `/reset` leaves the empty
      history, and other users' events do not touch it. */
  lemma {:induction false} HistoryAfterAnsweredAlternates(h: seq<Turn>, events: seq<Event>, u: UserId)
    requires Alternating(h) && |h| % 2 == 0
    requires AllAnswered(events, u)
    ensures var h' := HistoryAfter(h, events, u);
            Alternating(h') && |h'| % 2 == 0
    decreases |events|
  {
    if events != [] {
      var e := events[0];
      if e.Text? && e.user == u {
        assert e.outcome.Succeeded?;
        ExchangeKeepsAlternation(h, e.text, e.outcome.reply);
      }
      assert AllAnswered(events[1..], u) by {
        forall i | 0 <= i < |events[1..]| && events[1..][i].Text? && events[1..][i].user == u
          ensures events[1..][i].outcome.Succeeded?
        {
          assert events[1..][i] == events[i + 1];
        }
      }
      HistoryAfterAnsweredAlternates(Effect(h, e, u), events[1..], u);
    }
  }

  /** If every provider call for `u`'s messages succeeds, a history that
      alternates user, assistant, user, ... and has even length keeps doing
      so through any run of events. A user with no entry starts from the
      empty history, which qualifies. */
  lemma AnsweredRunAlternates(store: Store, events: seq<Event>, u: UserId)
    requires Alternating(HistoryOf(store, u)) && |HistoryOf(store, u)| % 2 == 0
    requires AllAnswered(events, u)
    ensures var h' := HistoryOf(Run(store, events).store, u);
            Alternating(h') && |h'| % 2 == 0
  {
    RunProjects(store, events, u);
    HistoryAfterAnsweredAlternates(HistoryOf(store, u), events, u);
  }

  /** Once an all-successful conversation holds MAX_HISTORY turns or more,
      the window sent with the next message starts with an assistant turn:
      cutting by turn count does not keep user/assistant pairs together. */
  lemma LongConversationWindowStartsWithAssistant(store: Store, u: UserId, message: string, outcome: Completion)
    requires Alternating(HistoryOf(store, u)) && |HistoryOf(store, u)| % 2 == 0
    requires |HistoryOf(store, u)| >= MAX_HISTORY
    ensures ChatWithGpt(store, u, message, outcome).sent[0].role == Assistant
  {
    var h := HistoryOf(store, u);
    var w := ChatWithGpt(store, u, message, outcome).sent;
    assert w[0] == (h + [UserTurn(message)])[|h| + 1 - MAX_HISTORY];
  }

  /** A failed call breaks alternation: the next message is sent right
      after the unanswered one, so the provider sees two user turns in a
      row. */
  lemma FailureThenMessageSendsTwoUserTurns(store: Store, u: UserId, m1: string, m2: string, o2: Completion)
    ensures var w := ChatWithGpt(ChatWithGpt(store, u, m1, Failed).store, u, m2, o2).sent;
            && |w| >= 2
            && w[|w| - 2] == UserTurn(m1) && w[|w| - 1] == UserTurn(m2)
            && (u !in store ==> w == [UserTurn(m1), UserTurn(m2)])
  {
    var h := HistoryOf(store, u);
    var h2 := h + [UserTurn(m1)] + [UserTurn(m2)];
    var w := ChatWithGpt(ChatWithGpt(store, u, m1, Failed).store, u, m2, o2).sent;
    assert w == Window(h2);
    assert w[|w| - 2] == h2[|h2| - 2];
  }

  /** Two messages from one user both land, one after the other: the
      second handler sees the first one's turns and appends after them. */
  lemma TwoMessagesBothLand(store: Store, u: UserId, m1: string, o1: Completion, m2: string, o2: Completion)
    ensures var h := HistoryOf(store, u);
            var h' := HistoryOf(Run(store, [Text(u, m1, o1), Text(u, m2, o2)]).store, u);
            var k := |h| + (if o1.Succeeded? then 2 else 1);
            && |h'| == k + (if o2.Succeeded? then 2 else 1)
            && h'[..|h|] == h
            && h'[|h|] == UserTurn(m1)
            && h'[k] == UserTurn(m2)
  {
    var es := [Text(u, m1, o1), Text(u, m2, o2)];
    var h := HistoryOf(store, u);
    var h1 := Effect(h, es[0], u);
    var h2 := Effect(h1, es[1], u);
    RunProjects(store, es, u);
    assert es[1..] == [Text(u, m2, o2)];
    assert es[1..][1..] == [];
    calc {
      HistoryAfter(h, es, u);
      HistoryAfter(h1, es[1..], u);
      HistoryAfter(h2, es[1..][1..], u);
      h2;
    }
    assert h1[..|h|] == h && h1[|h|] == UserTurn(m1);
    assert h2[..|h1|] == h1 && h2[|h1|] == UserTurn(m2);
  }

  /** `/reset` in the middle of a conversation: the next message starts a
      history of its own, whatever came before. */
  lemma ResetMidConversation(store: Store, u: UserId, m: string, o: Completion)
    ensures var t := Run(store, [ResetCommand(u), Text(u, m, o)]);
            && HistoryOf(t.store, u) == (if o.Succeeded? then [UserTurn(m), AssistantTurn(o.reply)] else [UserTurn(m)])
            && t.replies == [RESET_CONFIRMATION, ReplyFor(Text(u, m, o))]
  {
    var es := [ResetCommand(u), Text(u, m, o)];
    RunUnfolds(store, es);
    assert es[1..] == [Text(u, m, o)];
    RunUnfolds(Reset(store, u), es[1..]);
    assert es[1..][1..] == [];
    HandleEffect(Reset(store, u), Text(u, m, o), u);
  }
}
