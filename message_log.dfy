/**
 * The messages collection of main.py: an append-only log of chat messages, the
 * 30-minute context window over it, the "\n"-join of the window's texts, and the
 * flag flip that consumes messages once a reminder is created.
 */
module MessageLog {

  /**
   * Thirty minutes, in milliseconds. Timestamps are the store's values: a
   * datetime is kept to whole milliseconds, truncated towards the past.
   */
  const WindowMillis: int := 30 * 60 * 1000

  /** The store's reading of a microsecond clock: truncated to whole milliseconds. */
  function StoredMillis(micros: int): (ms: int)
    ensures ms * 1000 <= micros < ms * 1000 + 1000
  {
    micros / 1000
  }

  /**
   * The window's cutoff is computed on the microsecond clock and truncated when
   * it reaches the store. Thirty minutes is a whole number of milliseconds, so
   * that equals the stored reading of the clock minus `WindowMillis`: comparing
   * stored values, as `InWindow` does, is comparing what the query compares.
   */
  lemma StoredCutoff(nowMicros: int)
    ensures StoredMillis(nowMicros - 30 * 60 * 1000000) == StoredMillis(nowMicros) - WindowMillis
  {
    var ms := StoredMillis(nowMicros);
    assert (ms - WindowMillis) * 1000 <= nowMicros - 30 * 60 * 1000000 < (ms - WindowMillis) * 1000 + 1000;
  }

  /** One stored message; `id` stands for the store's ObjectId. */
  datatype Message = Message(id: nat, chatId: string, text: string, timestamp: int, processed: bool)

  /** In the log, every message's id is its position: ids are unique. */
  ghost predicate IdsAreIndices(log: seq<Message>) {
    forall i :: 0 <= i < |log| ==> log[i].id == i
  }

  /** The query filter: this chat, not yet processed, and no older than 30 minutes before `now` (inclusive). */
  predicate InWindow(m: Message, chatId: string, now: int) {
    m.chatId == chatId && !m.processed && m.timestamp >= now - WindowMillis
  }

  /** The messages the window query returns, in the log's order (no sort, no limit). */
  function Window(log: seq<Message>, chatId: string, now: int): (w: seq<Message>)
    ensures forall m :: m in w <==> m in log && InWindow(m, chatId, now)
    ensures |w| <= |log|
  {
    if log == [] then []
    else (if InWindow(log[0], chatId, now) then [log[0]] else []) + Window(log[1..], chatId, now)
  }

  lemma {:induction false} WindowAppend(a: seq<Message>, b: seq<Message>, chatId: string, now: int)
    ensures Window(a + b, chatId, now) == Window(a, chatId, now) + Window(b, chatId, now)
  {
    if a == [] {
      assert a + b == b;
    } else {
      assert (a + b)[1..] == a[1..] + b;
      WindowAppend(a[1..], b, chatId, now);
    }
  }

  /**
   * A message just appended to the log is in the window queried at `queriedAt`
   * (last, in the model's log order), unless more than 30 minutes separate the save from the query.
   * A clock that moves backwards between the two cannot push it out.
   */
  lemma SavedMessageInWindow(log: seq<Message>, text: string, chatId: string, savedAt: int, queriedAt: int)
    requires queriedAt <= savedAt + WindowMillis
    ensures var m := Message(|log|, chatId, text, savedAt, false);
            Window(log + [m], chatId, queriedAt) == Window(log, chatId, queriedAt) + [m]
  {
    var m := Message(|log|, chatId, text, savedAt, false);
    WindowAppend(log, [m], chatId, queriedAt);
    assert Window([m], chatId, queriedAt) == [m] + Window([], chatId, queriedAt);
  }

  /** The texts of a list of messages, in order. */
  function Texts(ms: seq<Message>): seq<string> {
    seq(|ms|, i requires 0 <= i < |ms| => ms[i].text)
  }

  /** Python's "\n".join(parts). */
  function JoinLines(parts: seq<string>): string {
    if parts == [] then ""
    else if |parts| == 1 then parts[0]
    else parts[0] + "\n" + JoinLines(parts[1..])
  }

  /** Python's s.split("\n"): always at least one piece. */
  function SplitLines(s: string): (parts: seq<string>)
    ensures |parts| >= 1
  {
    if s == [] then [""]
    else if s[0] == '\n' then [""] + SplitLines(s[1..])
    else
      var rest := SplitLines(s[1..]);
      [[s[0]] + rest[0]] + rest[1..]
  }

  lemma {:induction false} JoinPrependChar(c: char, parts: seq<string>)
    requires parts != []
    ensures JoinLines([[c] + parts[0]] + parts[1..]) == [c] + JoinLines(parts)
  {
    var q := [[c] + parts[0]] + parts[1..];
    assert q[1..] == parts[1..];
  }

  /** Splitting on "\n" and joining again gives back the string. */
  lemma {:induction false} JoinSplit(s: string)
    ensures JoinLines(SplitLines(s)) == s
  {
    if s == [] {
    } else if s[0] == '\n' {
      JoinSplit(s[1..]);
      var q := [""] + SplitLines(s[1..]);
      assert q[1..] == SplitLines(s[1..]);
      assert s == "\n" + s[1..];
    } else {
      JoinSplit(s[1..]);
      JoinPrependChar(s[0], SplitLines(s[1..]));
      assert s == [s[0]] + s[1..];
    }
  }

  lemma {:induction false} SplitNoNewline(a: string)
    requires '\n' !in a
    ensures SplitLines(a) == [a]
  {
    if a != [] {
      SplitNoNewline(a[1..]);
      assert [a[0]] + a[1..] == a;
    }
  }

  lemma {:induction false} SplitAfterLine(a: string, b: string)
    requires '\n' !in a
    ensures SplitLines(a + "\n" + b) == [a] + SplitLines(b)
  {
    if a == [] {
      assert a + "\n" + b == "\n" + b;
      assert ("\n" + b)[1..] == b;
    } else {
      var s := a + "\n" + b;
      assert s[0] == a[0] && s[1..] == a[1..] + "\n" + b;
      SplitAfterLine(a[1..], b);
      assert [a[0]] + a[1..] == a;
    }
  }

  /** Joining a non-empty list of texts that hold no newline loses nothing: the split recovers them. */
  lemma {:induction false} SplitJoin(parts: seq<string>)
    requires parts != []
    requires forall i :: 0 <= i < |parts| ==> '\n' !in parts[i]
    ensures SplitLines(JoinLines(parts)) == parts
  {
    if |parts| == 1 {
      SplitNoNewline(parts[0]);
    } else {
      SplitJoin(parts[1..]);
      SplitAfterLine(parts[0], JoinLines(parts[1..]));
      assert [parts[0]] + parts[1..] == parts;
    }
  }

  /** The ids of a list of messages. */
  function IdsOf(ms: seq<Message>): set<nat> {
    set m | m in ms :: m.id
  }

  lemma IdsOfAppend(ms: seq<Message>, m: Message)
    ensures IdsOf(ms + [m]) == IdsOf(ms) + {m.id}
  {
  }

  /** The log after `processed := true` on the messages whose id is in `ids`. */
  function MarkProcessed(log: seq<Message>, ids: set<nat>): (r: seq<Message>)
    ensures |r| == |log|
  {
    seq(|log|, i requires 0 <= i < |log| => if log[i].id in ids then log[i].(processed := true) else log[i])
  }

  /** Marking touches only the processed flag, only of the named messages. */
  lemma MarkProcessedFrame(log: seq<Message>, ids: set<nat>, i: int)
    requires 0 <= i < |log|
    ensures var r := MarkProcessed(log, ids)[i];
            && r.id == log[i].id && r.chatId == log[i].chatId && r.text == log[i].text
            && r.timestamp == log[i].timestamp
            && r.processed == (log[i].processed || log[i].id in ids)
  {
  }

  /** Marking in two rounds is marking the union; marking the same ids twice is a no-op. */
  lemma MarkProcessedCompose(log: seq<Message>, a: set<nat>, b: set<nat>)
    ensures MarkProcessed(MarkProcessed(log, a), b) == MarkProcessed(log, a + b)
    ensures MarkProcessed(MarkProcessed(log, a), a) == MarkProcessed(log, a)
  {
    assert forall i :: 0 <= i < |log| ==> MarkProcessed(MarkProcessed(log, a), b)[i] == MarkProcessed(log, a + b)[i];
    assert a + a == a;
  }

  /** Marking keeps ids at their positions. */
  lemma MarkKeepsIds(log: seq<Message>, ids: set<nat>)
    requires IdsAreIndices(log)
    ensures IdsAreIndices(MarkProcessed(log, ids))
  {
  }

  /** With ids at their positions, marking one more id is a single in-place flag update. */
  lemma MarkOneMore(log: seq<Message>, ids: set<nat>, id: nat)
    requires IdsAreIndices(log)
    ensures var before := MarkProcessed(log, ids);
            MarkProcessed(log, ids + {id})
              == if id < |log| then before[id := before[id].(processed := true)] else before
  {
  }

  /** The window's messages after marking: what the window held before, minus the marked ids. */
  function Unmarked(w: seq<Message>, ids: set<nat>): seq<Message> {
    if w == [] then []
    else (if w[0].id in ids then [] else [w[0]]) + Unmarked(w[1..], ids)
  }

  /**
   * Consuming messages removes exactly them from the window at the same `now`;
   * every other message (a clarification turn's, say) stays eligible.
   */
  lemma {:induction false} WindowAfterMark(log: seq<Message>, ids: set<nat>, chatId: string, now: int)
    ensures Window(MarkProcessed(log, ids), chatId, now) == Unmarked(Window(log, chatId, now), ids)
  {
    if log != [] {
      assert MarkProcessed(log, ids)[1..] == MarkProcessed(log[1..], ids);
      WindowAfterMark(log[1..], ids, chatId, now);
      var w := Window(log, chatId, now);
      if InWindow(log[0], chatId, now) {
        assert w == [log[0]] + Window(log[1..], chatId, now);
        assert w[1..] == Window(log[1..], chatId, now);
      } else {
        assert w == Window(log[1..], chatId, now);
      }
    }
  }

  /** With ids at their positions, consuming a window flags exactly the messages the window filter selects. */
  lemma MarkWindow(log: seq<Message>, chatId: string, now: int, i: int)
    requires IdsAreIndices(log) && 0 <= i < |log|
    ensures MarkProcessed(log, IdsOf(Window(log, chatId, now)))[i].processed
            == (log[i].processed || InWindow(log[i], chatId, now))
  {
    var w := Window(log, chatId, now);
    if InWindow(log[i], chatId, now) {
      assert log[i] in w;
      assert i in IdsOf(w);
    }
    if i in IdsOf(w) {
      var m :| m in w && m.id == i;
      var j :| 0 <= j < |log| && log[j] == m;
      assert j == i;
    }
  }
}
