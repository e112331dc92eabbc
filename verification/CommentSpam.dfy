/**
 Spam detection per (session, author): a sliding time window over a deque that is also
 truncated. The reference is the detector over the whole, never truncated, window.
*/
module CommentSpam {

  datatype Entry = Entry(time: int, text: string)
  datatype Verdict = Clean | Duplicate | Flood
  datatype Key = Key(session: string, author: string)

  function Max(a: int, b: int): int { if a < b then b else a }

  /** The longest a history may get, and the length that counts as a flood. */
  function Cap(limit: int): nat { Max(20, limit * 4) }
  function FloodAt(limit: int): nat { Max(10, limit * 3) }

  predicate Chronological(log: seq<Entry>) {
    |log| < 2 || (log[0].time <= log[1].time && Chronological(log[1..]))
  }

  /** The entries not older than `cutoff`. */
  function Window(log: seq<Entry>, cutoff: int): seq<Entry> {
    if log == [] then [] else (if log[0].time >= cutoff then [log[0]] else []) + Window(log[1..], cutoff)
  }

  function Occurrences(log: seq<Entry>, text: string): (n: nat)
    ensures n <= |log|
  {
    if log == [] then 0 else (if log[0].text == text then 1 else 0) + Occurrences(log[1..], text)
  }

  /** The last `n` entries, or all of them. */
  function Last(log: seq<Entry>, n: nat): seq<Entry> {
    if |log| <= n then log else Last(log[1..], n)
  }

  /** The detector without truncation: `window` is everything in the time window, the new message included. */
  function Detect(window: seq<Entry>, text: string, limit: int): Verdict {
    if Occurrences(window, text) >= limit then Duplicate
    else if |window| >= FloodAt(limit) then Flood
    else Clean
  }

  /** The verdict in numbers: a duplicate from `limit` copies on, else a flood from ten messages
      and three times the limit on. */
  lemma DetectMeaning(window: seq<Entry>, text: string, limit: int)
    ensures Detect(window, text, limit) == Duplicate <==> Occurrences(window, text) >= limit
    ensures Detect(window, text, limit) == Flood <==>
              Occurrences(window, text) < limit && |window| >= 10 && |window| >= 3 * limit
    ensures FloodAt(limit) <= Cap(limit) && Cap(limit) >= 20 && Cap(limit) >= 4 * limit
  {
  }

  // ---------- Expiring and truncating ----------

  /** What is left after popping heads older than `cutoff`. */
  function Expire(log: seq<Entry>, cutoff: int): seq<Entry> {
    if log == [] || log[0].time >= cutoff then log else Expire(log[1..], cutoff)
  }

  lemma {:induction false} NothingOld(log: seq<Entry>, cutoff: int)
    requires Chronological(log) && (log == [] || log[0].time >= cutoff)
    ensures Window(log, cutoff) == log
  {
    if log != [] { NothingOld(log[1..], cutoff); }
  }

  /** In a chronological log, popping old heads leaves the whole window. */
  lemma {:induction false} ExpireIsWindow(log: seq<Entry>, cutoff: int)
    requires Chronological(log)
    ensures Expire(log, cutoff) == Window(log, cutoff)
  {
    if log != [] {
      if log[0].time < cutoff { ExpireIsWindow(log[1..], cutoff); } else { NothingOld(log, cutoff); }
    }
  }

  lemma {:induction false} ChronologicalSnoc(log: seq<Entry>, e: Entry)
    ensures Chronological(log + [e]) <==> Chronological(log) && (log != [] ==> log[|log| - 1].time <= e.time)
  {
    if log != [] {
      ChronologicalSnoc(log[1..], e);
      assert (log + [e])[1..] == log[1..] + [e];
      assert |log| == 1 ==> log[1..] == [];
    }
  }

  lemma {:induction false} ChronologicalLast(log: seq<Entry>, n: nat, cutoff: int)
    requires Chronological(log) && (log == [] || log[0].time >= cutoff)
    ensures var rest := Last(log, n); rest == [] || rest[0].time >= cutoff
  {
    if |log| > n { ChronologicalLast(log[1..], n, cutoff); }
  }

  /** Truncating and then expiring is expiring and then truncating. */
  lemma {:induction false} ExpireLast(log: seq<Entry>, n: nat, cutoff: int)
    requires Chronological(log)
    ensures Expire(Last(log, n), cutoff) == Last(Expire(log, cutoff), n)
  {
    if |log| > n {
      if log[0].time < cutoff {
        ExpireLast(log[1..], n, cutoff);
      } else {
        ChronologicalLast(log, n, cutoff);
      }
    } else {
      LastOfShort(log, n, cutoff);
    }
  }

  lemma {:induction false} LastOfShort(log: seq<Entry>, n: nat, cutoff: int)
    requires |log| <= n
    ensures Last(Expire(log, cutoff), n) == Expire(log, cutoff)
  {
    if log != [] && log[0].time < cutoff { LastOfShort(log[1..], n, cutoff); }
  }

  /** What an earlier cutoff removed, a later one would have removed too. */
  lemma {:induction false} ExpireTwice(log: seq<Entry>, e: Entry, earlier: int, later: int)
    requires earlier <= later
    ensures Expire(Expire(log, earlier) + [e], later) == Expire(log + [e], later)
  {
    if log != [] && log[0].time < earlier {
      ExpireTwice(log[1..], e, earlier, later);
      assert (log + [e])[1..] == log[1..] + [e];
    }
  }

  lemma {:induction false} ChronologicalExpire(log: seq<Entry>, e: Entry, cutoff: int)
    requires Chronological(log + [e])
    ensures Chronological(Expire(log, cutoff) + [e])
  {
    if log != [] && log[0].time < cutoff {
      assert (log + [e])[1..] == log[1..] + [e];
      ChronologicalExpire(log[1..], e, cutoff);
    }
  }

  lemma {:induction false} LastSnoc(log: seq<Entry>, e: Entry, n: nat)
    ensures Last(log, n) + [e] == Last(log + [e], n + 1)
    ensures n > 0 ==> Last(Last(log, n) + [e], n) == Last(log + [e], n)
  {
    if |log| > n {
      assert (log + [e])[1..] == log[1..] + [e];
      LastSnoc(log[1..], e, n);
    }
  }

  lemma {:induction false} LastLength(log: seq<Entry>, n: nat)
    ensures |Last(log, n)| == if |log| <= n then |log| else n
  {
    if |log| > n { LastLength(log[1..], n); }
  }

  lemma {:induction false} OccurrencesSnoc(log: seq<Entry>, e: Entry, text: string)
    ensures Occurrences(log + [e], text) == Occurrences(log, text) + if e.text == text then 1 else 0
  {
    if log != [] {
      assert (log + [e])[1..] == log[1..] + [e];
      OccurrencesSnoc(log[1..], e, text);
    }
  }

  lemma {:induction false} OccurrencesLast(log: seq<Entry>, n: nat, text: string)
    ensures Occurrences(Last(log, n), text) <= Occurrences(log, text)
  {
    if |log| > n { OccurrencesLast(log[1..], n, text); }
  }

  // ---------- The truncated detector and the reference ----------

  /** What the truncated detector says, in terms of the whole window. */
  function Judged(window: seq<Entry>, text: string, limit: int): Verdict {
    if Occurrences(Last(window, Cap(limit) + 1), text) >= limit then Duplicate
    else if |window| >= FloodAt(limit) then Flood
    else Clean
  }

  /** Truncation never changes whether a message is flagged. */
  lemma TruncationIsHarmless(window: seq<Entry>, text: string, limit: int)
    ensures Judged(window, text, limit) == Clean <==> Detect(window, text, limit) == Clean
  {
    OccurrencesLast(window, Cap(limit) + 1, text);
  }

  /** It changes the reported reason exactly when the stored end of the window holds too few copies
      of the text and the whole window enough: then a duplicate is reported as a flood. */
  lemma ReasonDiffersExactly(window: seq<Entry>, text: string, limit: int)
    ensures Judged(window, text, limit) != Detect(window, text, limit) <==>
              Occurrences(Last(window, Cap(limit) + 1), text) < limit <= Occurrences(window, text)
    ensures Judged(window, text, limit) != Detect(window, text, limit) ==>
              Judged(window, text, limit) == Flood && Detect(window, text, limit) == Duplicate && |window| > Cap(limit) + 1
  {
    OccurrencesLast(window, Cap(limit) + 1, text);
  }

  /** It does happen, as soon as the first of `Cap + 2` entries is the only earlier copy. */
  lemma ReasonCanDiffer(again: Entry, others: seq<Entry>)
    requires |others| == 20 && Occurrences(others, again.text) == 0
    ensures var window := [again] + others + [again];
            Judged(window, again.text, 2) == Flood && Detect(window, again.text, 2) == Duplicate
  {
    var window := [again] + others + [again];
    assert window[1..] == others + [again];
    OccurrencesSnoc(others, again, again.text);
    assert Occurrences(window, again.text) == 2;
    assert Last(window, 21) == Last(window[1..], 21) == window[1..];
  }

  // ---------- Stored histories ----------

  /** What is kept after a message: the end of the window it saw, itself included. */
  function Stored(log: seq<Entry>, windowSeconds: int, limit: int): seq<Entry> {
    if log == [] then []
    else
      var front, last := log[..|log| - 1], log[|log| - 1];
      Last(Window(front, last.time - windowSeconds) + [last], Cap(limit))
  }

  lemma StoredSnoc(log: seq<Entry>, e: Entry, windowSeconds: int, limit: int)
    ensures Stored(log + [e], windowSeconds, limit) == Last(Window(log, e.time - windowSeconds) + [e], Cap(limit))
  {
    assert (log + [e])[..|log|] == log;
  }

  /** Popping too old heads of the stored history leaves the end of the new window. */
  lemma ExpireStored(log: seq<Entry>, windowSeconds: int, limit: int, cutoff: int)
    requires Chronological(log) && (log != [] ==> log[|log| - 1].time - windowSeconds <= cutoff)
    ensures Expire(Stored(log, windowSeconds, limit), cutoff) == Last(Window(log, cutoff), Cap(limit))
  {
    if log != [] { ExpireStoredSnoc(log[..|log| - 1], log[|log| - 1], log, windowSeconds, limit, cutoff); }
  }

  lemma ExpireStoredSnoc(front: seq<Entry>, last: Entry, log: seq<Entry>, windowSeconds: int, limit: int, cutoff: int)
    requires log == front + [last] && Chronological(log) && last.time - windowSeconds <= cutoff
    ensures Expire(Last(Window(front, last.time - windowSeconds) + [last], Cap(limit)), cutoff) == Last(Window(log, cutoff), Cap(limit))
  {
    var earlier := last.time - windowSeconds;
    var window := Window(front, earlier) + [last];
    assert Expire(front, earlier) == Window(front, earlier) by {
      ChronologicalSnoc(front, last);
      ExpireIsWindow(front, earlier);
    }
    assert Chronological(window) by { ChronologicalExpire(front, last, earlier); }
    assert Expire(window, cutoff) == Window(log, cutoff) by {
      ExpireTwice(front, last, earlier, cutoff);
      ExpireIsWindow(log, cutoff);
    }
    ExpireLast(window, Cap(limit), cutoff);
  }

  /** One message of a clock that has not stepped back, in terms of the window. */
  lemma AsOverWindow(stored: seq<Entry>, log: seq<Entry>, e: Entry, windowSeconds: int, limit: int)
    requires Chronological(log + [e]) && (Chronological(log) ==> stored == Stored(log, windowSeconds, limit))
    ensures var kept, window := Expire(stored, e.time - windowSeconds) + [e], Window(log, e.time - windowSeconds) + [e];
            kept == Last(window, Cap(limit) + 1) && Last(kept, Cap(limit)) == Stored(log + [e], windowSeconds, limit)
  {
    ChronologicalSnoc(log, e);
    ExpireStored(log, windowSeconds, limit, e.time - windowSeconds);
    LastSnoc(Window(log, e.time - windowSeconds), e, Cap(limit));
    StoredSnoc(log, e, windowSeconds, limit);
  }

  lemma DetectsLast(window: seq<Entry>, text: string, limit: int)
    ensures Detect(Last(window, Cap(limit) + 1), text, limit) == Judged(window, text, limit)
  {
    LastLength(window, Cap(limit) + 1);
  }

  /** So the verdict on what is left of the history is right for the window, up to its reason. */
  lemma VerdictOverWindow(stored: seq<Entry>, log: seq<Entry>, e: Entry, windowSeconds: int, limit: int)
    requires Chronological(log + [e]) && (Chronological(log) ==> stored == Stored(log, windowSeconds, limit))
    ensures var kept, window := Expire(stored, e.time - windowSeconds) + [e], Window(log, e.time - windowSeconds) + [e];
      && Last(kept, Cap(limit)) == Stored(log + [e], windowSeconds, limit)
      && (Detect(kept, e.text, limit) == Clean <==> Detect(window, e.text, limit) == Clean)
      && (Detect(kept, e.text, limit) != Detect(window, e.text, limit) <==>
            Occurrences(Last(window, Cap(limit) + 1), e.text) < limit <= Occurrences(window, e.text))
  {
    var window := Window(log, e.time - windowSeconds) + [e];
    AsOverWindow(stored, log, e, windowSeconds, limit);
    DetectsLast(window, e.text, limit);
    TruncationIsHarmless(window, e.text, limit);
    ReasonDiffersExactly(window, e.text, limit);
  }

  // ---------- The detector object ----------

  function Of(m: map<Key, seq<Entry>>, key: Key): seq<Entry> {
    if key in m then m[key] else []
  }

  lemma OthersUntouched(before: map<Key, seq<Entry>>, after: map<Key, seq<Entry>>, key: Key)
    requires key in after && after == before[key := after[key]]
    ensures forall k | k != key :: Of(after, k) == Of(before, k)
  {
  }

  ghost predicate AllStored(logs: map<Key, seq<Entry>>, history: map<Key, seq<Entry>>, windowSeconds: int, limit: int) {
    forall key | Chronological(Of(logs, key)) :: Of(history, key) == Stored(Of(logs, key), windowSeconds, limit)
  }

  lemma StaysStored(logs: map<Key, seq<Entry>>, history: map<Key, seq<Entry>>, windowSeconds: int, limit: int,
                    key: Key, e: Entry, items: seq<Entry>)
    requires AllStored(logs, history, windowSeconds, limit)
    requires Chronological(Of(logs, key) + [e]) ==> items == Stored(Of(logs, key) + [e], windowSeconds, limit)
    ensures AllStored(logs[key := Of(logs, key) + [e]], history[key := items], windowSeconds, limit)
  {
    var after, kept := logs[key := Of(logs, key) + [e]], history[key := items];
    OthersUntouched(logs, after, key);
    OthersUntouched(history, kept, key);
    forall k | Chronological(Of(after, k)) ensures Of(kept, k) == Stored(Of(after, k), windowSeconds, limit) {
      if k != key { assert Of(after, k) == Of(logs, k) && Of(kept, k) == Of(history, k); }
    }
  }

  class SpamDetector {
    const windowSeconds: int
    const limit: int
    var history: map<Key, seq<Entry>>
    ghost var logs: map<Key, seq<Entry>>   // every message ever checked

    /** While an author's clock has not stepped back, the history is the last `Cap` entries of the
        window the last message saw. */
    ghost predicate Valid()
      reads this
    {
      AllStored(logs, history, windowSeconds, limit)
    }

    constructor (windowSeconds: int, limit: int)
      ensures Valid() && this.windowSeconds == windowSeconds && this.limit == limit && logs == map[]
    {
      this.windowSeconds, this.limit := windowSeconds, limit;
      history, logs := map[], map[];
    }

    /** `_spam`: for any clock, the verdict is the detector's on what is left of the history. With a
        clock that has not stepped back, a message is flagged exactly when the detector over the
        untruncated window flags it, and the reason differs exactly in the case above. */
    method Spam(key: Key, text: string, now: int) returns (verdict: Verdict)
      requires Valid()
      modifies this
      ensures Valid()
      ensures logs == old(logs)[key := Of(old(logs), key) + [Entry(now, text)]]
      ensures forall k | k != key :: Of(history, k) == Of(old(history), k)
      ensures var kept := Expire(Of(old(history), key), now - windowSeconds) + [Entry(now, text)];
              Of(history, key) == Last(kept, Cap(limit)) && verdict == Detect(kept, text, limit)
      ensures Chronological(Of(logs, key)) ==>
                var window := Window(Of(old(logs), key), now - windowSeconds) + [Entry(now, text)];
                && (verdict == Clean <==> Detect(window, text, limit) == Clean)
                && (verdict != Detect(window, text, limit) <==>
                      Occurrences(Last(window, Cap(limit) + 1), text) < limit <= Occurrences(window, text))
    {
      ghost var log, e := Of(logs, key), Entry(now, text);
      var items;
      items, verdict := Check(Of(history, key), text, now);
      if Chronological(log + [e]) { VerdictOverWindow(Of(history, key), log, e, windowSeconds, limit); }
      StaysStored(logs, history, windowSeconds, limit, key, e, items);
      history := history[key := items];
      logs := logs[key := log + [Entry(now, text)]];
      OthersUntouched(old(logs), logs, key);
      OthersUntouched(old(history), history, key);
    }

    method Check(stored: seq<Entry>, text: string, now: int) returns (items: seq<Entry>, verdict: Verdict)
      ensures var kept := Expire(stored, now - windowSeconds) + [Entry(now, text)];
              items == Last(kept, Cap(limit)) && verdict == Detect(kept, text, limit)
    {
      items := PopOld(stored, now - windowSeconds);
      var same := CountSame(items, text);
      OccurrencesSnoc(items, Entry(now, text), text);
      LastLength(items + [Entry(now, text)], Cap(limit));
      items := Truncate(items + [Entry(now, text)]);
      verdict := if same + 1 >= limit then Duplicate else if |items| >= FloodAt(limit) then Flood else Clean;
    }

    /** `while history and history[0][0] < cutoff: history.popleft()`. */
    method PopOld(stored: seq<Entry>, cutoff: int) returns (items: seq<Entry>)
      ensures items == Expire(stored, cutoff)
    {
      items := stored;
      while items != [] && items[0].time < cutoff
        invariant Expire(items, cutoff) == Expire(stored, cutoff)
        decreases |items|
      {
        items := items[1..];
      }
    }

    method CountSame(items: seq<Entry>, text: string) returns (same: nat)
      ensures same == Occurrences(items, text)
    {
      same := 0;
      for i := 0 to |items|
        invariant same + Occurrences(items[i..], text) == Occurrences(items, text)
      {
        assert items[i..][1..] == items[i + 1..];
        if items[i].text == text { same := same + 1; }
      }
    }

    /** `while len(history) > cap: history.popleft()`. */
    method Truncate(full: seq<Entry>) returns (items: seq<Entry>)
      ensures items == Last(full, Cap(limit))
    {
      items := full;
      while |items| > Cap(limit)
        invariant Last(items, Cap(limit)) == Last(full, Cap(limit))
        decreases |items|
      {
        items := items[1..];
      }
    }
  }

  /** No old entry stands behind a newer one. */
  predicate NothingHidden(stored: seq<Entry>, cutoff: int) {
    forall i, j | 0 <= i < j < |stored| && stored[i].time >= cutoff :: stored[j].time >= cutoff
  }

  lemma OldHeadHidesNothing(stored: seq<Entry>, cutoff: int)
    requires stored != [] && stored[0].time < cutoff
    ensures NothingHidden(stored, cutoff) <==> NothingHidden(stored[1..], cutoff)
  {
    assert forall i | 0 < i < |stored| :: stored[i] == stored[1..][i - 1];
    if NothingHidden(stored[1..], cutoff) {
      forall i, j | 0 <= i < j < |stored| && stored[i].time >= cutoff ensures stored[j].time >= cutoff {
        assert stored[1..][i - 1] == stored[i];
      }
    }
  }

  /** Popping heads leaves exactly the window when nothing old is hidden, and only then. */
  lemma {:induction false} NothingHiddenExactly(stored: seq<Entry>, cutoff: int)
    ensures Expire(stored, cutoff) == Window(stored, cutoff) <==> NothingHidden(stored, cutoff)
  {
    if stored != [] {
      if stored[0].time < cutoff {
        NothingHiddenExactly(stored[1..], cutoff);
        OldHeadHidesNothing(stored, cutoff);
      } else {
        WindowIsAll(stored, cutoff);
      }
    }
  }

  lemma {:induction false} WindowIsAll(stored: seq<Entry>, cutoff: int)
    ensures |Window(stored, cutoff)| <= |stored|
    ensures Window(stored, cutoff) == stored <==> forall j | 0 <= j < |stored| :: stored[j].time >= cutoff
  {
    if stored != [] {
      WindowIsAll(stored[1..], cutoff);
      assert forall i | 0 < i < |stored| :: stored[i] == stored[1..][i - 1];
      if stored[0].time >= cutoff {
        assert Window(stored, cutoff)[1..] == Window(stored[1..], cutoff);
        assert Window(stored, cutoff) == stored <==> Window(stored[1..], cutoff) == stored[1..];
      }
    }
  }

  /** A clock that steps back puts one there, and a message is flagged that the true window lets
      pass: window of 30 seconds, limit 3, the same text at times 50, 10 and 50. */
  method ClockStepsBack(key: Key) returns (verdict: Verdict)
    ensures verdict == Duplicate
    ensures var log := [Entry(50, "hi"), Entry(10, "hi")];
            Detect(Window(log, 50 - 30) + [Entry(50, "hi")], "hi", 3) == Clean
  {
    var detector := new SpamDetector(30, 3);
    var first := detector.Spam(key, "hi", 50);
    assert Of(detector.history, key) == [Entry(50, "hi")];
    var second := detector.Spam(key, "hi", 10);
    assert Of(detector.history, key) == [Entry(50, "hi"), Entry(10, "hi")];
    verdict := detector.Spam(key, "hi", 50);
    ThreeOfThem();
  }

  lemma ThreeOfThem()
    ensures var log := [Entry(50, "hi"), Entry(10, "hi")];
            Detect(log + [Entry(50, "hi")], "hi", 3) == Duplicate && Detect(Window(log, 20) + [Entry(50, "hi")], "hi", 3) == Clean
  {
    var e, log := Entry(50, "hi"), [Entry(50, "hi"), Entry(10, "hi")];
    assert log[1..] == [Entry(10, "hi")] && Window(log[1..], 20) == [];
    assert Occurrences(log[1..], "hi") == 1;
    assert Occurrences(log, "hi") == 2;
    OccurrencesSnoc(log, e, "hi");
    assert Occurrences(log + [e], "hi") == 3;
    assert Window(log, 20) == [e];
    OccurrencesSnoc([], e, "hi");
    OccurrencesSnoc([e], e, "hi");
    assert [] + [e] == [e];
    assert Occurrences([e] + [e], "hi") == 2;
  }
}
