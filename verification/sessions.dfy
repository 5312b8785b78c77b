/** The per-user conversation store of the bot (`user_sessions`) and the two
    operations that change it: one message exchange (`chat_with_gpt`) and the
    `/reset` command. The store is an immutable map; each operation returns
    the new map. */
module Sessions {
  import opened Turns
  import opened PySlice

  /** Telegram user ids are integers. */
  type UserId = int

  /** `user_sessions`: user id to that user's full, chronological history. */
  type Store = map<UserId, seq<Turn>>

  /** Number of most recent turns sent to the provider with each message. */
  const MAX_HISTORY: int := 20

  /** Text returned to the user when the provider call fails. */
  const FALLBACK: string := "⚠️ Ошибка при обращении к GPT. Попробуйте позже."

  /** What the completion provider did with one request: produced a reply,
      or raised (network error, malformed response, provider error). */
  datatype Completion = Succeeded(reply: string) | Failed

  /** Outcome of one message: the new store, the window that was sent to
      the provider, and the text returned to the user. */
  datatype Exchange = Exchange(store: Store, sent: seq<Turn>, reply: string)

  /** A user's history; a user the store has never seen has none. */
  function HistoryOf(store: Store, u: UserId): seq<Turn>
  {
    if u in store then store[u] else []
  }

  /** The turns sent to the provider: `history[-MAX_HISTORY:]`. */
  function Window(h: seq<Turn>): (w: seq<Turn>)
    ensures IsSuffix(w, h)
    ensures |w| == Min(MAX_HISTORY, |h|)
  {
    SliceFrom(h, -MAX_HISTORY)
  }

  /** The window a user would get now; empty for an unknown user. */
  function RecentWindow(store: Store, u: UserId): (w: seq<Turn>)
    ensures IsSuffix(w, HistoryOf(store, u))
    ensures |w| == Min(MAX_HISTORY, |HistoryOf(store, u)|)
    ensures u !in store ==> w == []
  {
    Window(HistoryOf(store, u))
  }

  /** One message from user `u`, with the provider's behaviour supplied as
      `outcome`. Creates the user's history on first contact, appends the
      user turn, sends the last MAX_HISTORY turns, and on success appends
      the reply. Only `u`'s entry changes. */
  function ChatWithGpt(store: Store, u: UserId, message: string, outcome: Completion): (x: Exchange)
    ensures u in x.store
    ensures x.store == store[u := x.store[u]]
    ensures x.sent == Window(HistoryOf(store, u) + [UserTurn(message)])
    ensures outcome.Succeeded? ==>
              && x.store[u] == HistoryOf(store, u) + [UserTurn(message), AssistantTurn(outcome.reply)]
              && x.reply == outcome.reply
    ensures outcome.Failed? ==>
              && x.store[u] == HistoryOf(store, u) + [UserTurn(message)]
              && x.reply == FALLBACK
  {
    var created := if u in store then store else store[u := []];
    var appended := created[u := created[u] + [UserTurn(message)]];
    var session := Window(appended[u]);
    match outcome
    case Succeeded(reply) =>
      Exchange(appended[u := appended[u] + [AssistantTurn(reply)]], session, reply)
    case Failed =>
      Exchange(appended, session, FALLBACK)
  }

  /** The state effect of `/reset`: the user's history becomes empty. */
  function Reset(store: Store, u: UserId): (r: Store)
    ensures u in r && r[u] == []
    ensures r == store[u := r[u]]
  {
    store[u := []]
  }

  /** The first message of an unknown user behaves exactly as if the user
      already had an empty history: lazy creation never fails. */
  lemma FirstContactIsEmptyHistory(store: Store, u: UserId, message: string, outcome: Completion)
    requires u !in store
    ensures ChatWithGpt(store, u, message, outcome) == ChatWithGpt(store[u := []], u, message, outcome)
  {
  }

  /** The stored history is never trimmed: the old history is a prefix of
      the new one, followed by the user turn, and it grows by one turn on
      failure and by two on success. */
  lemma ChatExtendsHistory(store: Store, u: UserId, message: string, outcome: Completion)
    ensures var h := HistoryOf(store, u);
            var h' := HistoryOf(ChatWithGpt(store, u, message, outcome).store, u);
            && |h'| == |h| + (if outcome.Succeeded? then 2 else 1)
            && h'[..|h|] == h
            && h'[|h|] == UserTurn(message)
  {
  }

  /** The window sent to the provider ends with the message just received,
      so it is never empty, holds at most MAX_HISTORY turns, and is a
      contiguous run of the stored history ending at that message. */
  lemma SentWindowEndsWithMessage(store: Store, u: UserId, message: string, outcome: Completion)
    ensures var x := ChatWithGpt(store, u, message, outcome);
            var n := |HistoryOf(store, u)| + 1;
            && 0 < |x.sent| <= MAX_HISTORY
            && x.sent[|x.sent| - 1] == UserTurn(message)
            && x.sent == x.store[u][n - |x.sent|..n]
  {
    var x := ChatWithGpt(store, u, message, outcome);
    var h := HistoryOf(store, u) + [UserTurn(message)];
    assert x.store[u][..|h|] == h;
  }

  /** A history of at most MAX_HISTORY turns is sent whole. */
  lemma ShortHistorySentWhole(h: seq<Turn>)
    requires |h| <= MAX_HISTORY
    ensures Window(h) == h
  {
    SuffixUnique(Window(h), h, h);
  }

  /** The window is the tail of the history: once the history is longer
      than MAX_HISTORY, the oldest turns are not sent. */
  lemma WindowDropsOldest(h: seq<Turn>)
    requires |h| > MAX_HISTORY
    ensures Window(h) == h[|h| - MAX_HISTORY..]
  {
  }

  /** The next window depends only on the previous window and the new turn:
      a sliding window of width MAX_HISTORY. */
  lemma WindowSlides(h: seq<Turn>, t: Turn)
    ensures Window(h + [t]) == Window(Window(h) + [t])
  {
    var w := Window(h);
    var a := Window(h + [t]);
    var b := Window(w + [t]);
    assert |a| == |b|;
    assert (h + [t])[|h + [t]| - |w + [t]|..] == w + [t];
    assert IsSuffix(b, h + [t]);
    SuffixUnique(a, b, h + [t]);
  }

  /** Taking the window of a window changes nothing. */
  lemma WindowIdempotent(h: seq<Turn>)
    ensures Window(Window(h)) == Window(h)
  {
  }

  /** `/reset` empties the user's history, so the next window is empty. */
  lemma ResetEmptiesWindow(store: Store, u: UserId)
    ensures RecentWindow(Reset(store, u), u) == []
  {
  }

  /** Resetting twice is the same as resetting once. */
  lemma ResetIdempotent(store: Store, u: UserId)
    ensures Reset(Reset(store, u), u) == Reset(store, u)
  {
  }

  /** After `/reset` the next message starts a fresh history holding only
      that exchange. */
  lemma ChatAfterResetStartsFresh(store: Store, u: UserId, message: string, outcome: Completion)
    ensures var x := ChatWithGpt(Reset(store, u), u, message, outcome);
            && x.sent == [UserTurn(message)]
            && x.store[u] == (if outcome.Succeeded? then [UserTurn(message), AssistantTurn(outcome.reply)]
                              else [UserTurn(message)])
  {
  }

  /** A message from `u` leaves every other user's entry as it was,
      including whether the user has one at all. */
  lemma ChatKeepsOtherUsers(store: Store, u: UserId, message: string, outcome: Completion, v: UserId)
    requires v != u
    ensures var s' := ChatWithGpt(store, u, message, outcome).store;
            && (v in s' <==> v in store)
            && HistoryOf(s', v) == HistoryOf(store, v)
  {
  }

  /** `/reset` of `u` leaves every other user's entry as it was. */
  lemma ResetKeepsOtherUsers(store: Store, u: UserId, v: UserId)
    requires v != u
    ensures (v in Reset(store, u) <==> v in store)
    ensures HistoryOf(Reset(store, u), v) == HistoryOf(store, v)
  {
  }

  /** What a message sends and returns, and the history it leaves, depend
      on the sender's own history only. */
  lemma ChatSeesOnlyOwnHistory(s1: Store, s2: Store, u: UserId, message: string, outcome: Completion)
    requires HistoryOf(s1, u) == HistoryOf(s2, u)
    ensures var x1 := ChatWithGpt(s1, u, message, outcome);
            var x2 := ChatWithGpt(s2, u, message, outcome);
            x1.sent == x2.sent && x1.reply == x2.reply && x1.store[u] == x2.store[u]
  {
  }

  /** Messages from two different users touch disjoint entries, so their
      order does not matter: each user is sent the same window and gets the
      same reply either way (`ChatKeepsOtherUsers`, `ChatSeesOnlyOwnHistory`),
      and the final store is the same. */
  lemma ChatsOfDistinctUsersCommute(store: Store, u: UserId, mu: string, ou: Completion,
                                    v: UserId, mv: string, ov: Completion)
    requires u != v
    ensures var xu := ChatWithGpt(store, u, mu, ou);
            var xv := ChatWithGpt(store, v, mv, ov);
            ChatWithGpt(xu.store, v, mv, ov).store == ChatWithGpt(xv.store, u, mu, ou).store
  {
    var xu := ChatWithGpt(store, u, mu, ou);
    var xv := ChatWithGpt(store, v, mv, ov);
    ChatKeepsOtherUsers(store, u, mu, ou, v);
    ChatKeepsOtherUsers(store, v, mv, ov, u);
    ChatSeesOnlyOwnHistory(xu.store, store, v, mv, ov);
    ChatSeesOnlyOwnHistory(xv.store, store, u, mu, ou);
    var xuv := ChatWithGpt(xu.store, v, mv, ov);
    var xvu := ChatWithGpt(xv.store, u, mu, ou);
    calc {
      xuv.store;
      xu.store[v := xv.store[v]];
      store[u := xu.store[u]][v := xv.store[v]];
      store[v := xv.store[v]][u := xu.store[u]];
      xv.store[u := xu.store[u]];
      xvu.store;
    }
  }

  /** A reset of one user and a message from another commute. */
  lemma ResetAndOtherChatCommute(store: Store, u: UserId, v: UserId, mv: string, ov: Completion)
    requires u != v
    ensures var x := ChatWithGpt(store, v, mv, ov);
            var y := ChatWithGpt(Reset(store, u), v, mv, ov);
            && Reset(x.store, u) == y.store
            && x.sent == y.sent && x.reply == y.reply
  {
    ResetKeepsOtherUsers(store, u, v);
  }

  /** A first message "hello" answered by "hi there" leaves exactly those
      two turns. */
  lemma HelloScenario(u: UserId)
    ensures var x := ChatWithGpt(map[], u, "hello", Succeeded("hi there"));
            && x.reply == "hi there"
            && x.sent == [Turn(User, "hello")]
            && x.store[u] == [Turn(User, "hello"), Turn(Assistant, "hi there")]
            && RecentWindow(x.store, u) == x.store[u]
  {
  }

  /** A provider failure on the first message: the fallback is returned and
      only the user turn is kept. */
  lemma FailedFirstMessageScenario(u: UserId)
    ensures var x := ChatWithGpt(map[], u, "hello", Failed);
            && x.reply == FALLBACK
            && x.store[u] == [Turn(User, "hello")]
  {
  }
}
