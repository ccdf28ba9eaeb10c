/**
 * The recency tracker of main.py: a process-wide dictionary from
 * (chat id, message id) to the date a supergroup message was sent.
 * Every new supergroup message is inserted, and then the whole dictionary is
 * swept: an entry whose age, measured against the new message's own date,
 * exceeds REACTION_SECONDS_THRESHOLD seconds is deleted.
 *
 * Dates are integer microseconds, so the source's
 * `(message.date - value).total_seconds() > 10` is the exact comparison
 * `message.date - value > THRESHOLD_MICROS`.
 */
module MessageTracker {
  import opened Wrappers

  /** A message date, in microseconds. */
  type Timestamp = int

  /** (chat id, message id), the dictionary's key. */
  type Key = (int, int)

  const REACTION_SECONDS_THRESHOLD: int := 10
  const MICROS_PER_SECOND: int := 1_000_000
  const THRESHOLD_MICROS: int := REACTION_SECONDS_THRESHOLD * MICROS_PER_SECOND

  /** The age test shared by the sweep and by the reaction rule: more than the threshold has elapsed. */
  predicate ExceedsThreshold(later: Timestamp, earlier: Timestamp) {
    later - earlier > THRESHOLD_MICROS
  }

  datatype ChatType = Private | Group | Supergroup | Channel

  /** The fields of an incoming message that the tracker reads. */
  datatype Message = Message(chatId: int, messageId: int, chatType: ChatType, date: Timestamp)

  function KeyOf(msg: Message): Key {
    (msg.chatId, msg.messageId)
  }

  /** The dictionary's `get`: the date stored under `key`, if any. */
  function Get(m: map<Key, Timestamp>, key: Key): (r: Option<Timestamp>)
    ensures r.Some? <==> key in m
    ensures r.Some? ==> r.value == m[key]
  {
    if key in m then Some(m[key]) else None
  }

  /**
   * The sweep against date `now`: the sweep only removes, it removes exactly
   * the entries older than the threshold, and what it keeps is unchanged.
   */
  function Swept(m: map<Key, Timestamp>, now: Timestamp): (r: map<Key, Timestamp>)
    ensures r.Keys <= m.Keys
    ensures forall k :: k in r ==> r[k] == m[k]
    ensures forall k :: k in m ==> (k in r <==> !ExceedsThreshold(now, m[k]))
  {
    map k | k in m && !ExceedsThreshold(now, m[k]) :: m[k]
  }

  /**
   * The dictionary after recording `key` with `date`: insert (or overwrite),
   * then sweep against `date`.
   */
  function Recorded(m: map<Key, Timestamp>, key: Key, date: Timestamp): (r: map<Key, Timestamp>)
    // the new entry survives its own sweep (date - date == 0)
    ensures key in r && r[key] == date
    // sweep invariant: everything left is within the threshold of `date`
    ensures forall k :: k in r ==> date - r[k] <= THRESHOLD_MICROS
    // no key is added except `key`, and no other value changes
    ensures forall k :: k in r && k != key ==> k in m && r[k] == m[k]
    // every other entry within the threshold is kept, future-dated ones included
    ensures forall k :: k in m && k != key && date - m[k] <= THRESHOLD_MICROS ==> k in r
    ensures forall k :: k in m && k != key && m[k] >= date ==> k in r
  {
    Swept(m[key := date], date)
  }

  /** The supergroup-message handler's effect on the dictionary; other chat types are not handled. */
  function OnMessage(m: map<Key, Timestamp>, msg: Message): (r: map<Key, Timestamp>)
    // a message from any other chat type is ignored
    ensures msg.chatType != Supergroup ==> r == m
    // a supergroup message is tracked, and leaves only entries within the threshold of its date
    ensures msg.chatType == Supergroup ==>
              KeyOf(msg) in r && r[KeyOf(msg)] == msg.date &&
              forall k :: k in r ==> !ExceedsThreshold(msg.date, r[k])
    // and it keeps every entry that is within the threshold of its date
    ensures msg.chatType == Supergroup ==>
              forall k :: k in m && !ExceedsThreshold(msg.date, m[k]) ==> k in r
    // either way, every other entry left is one that was there, unchanged
    ensures forall k :: k in r && k != KeyOf(msg) ==> k in m && r[k] == m[k]
  {
    if msg.chatType == Supergroup then Recorded(m, KeyOf(msg), msg.date) else m
  }

  /** The dictionary after a sequence of incoming messages, in order. */
  function OnMessages(m: map<Key, Timestamp>, msgs: seq<Message>): (r: map<Key, Timestamp>)
    // every entry is one that was there, unchanged, or the date of some supergroup message with that key
    ensures forall k :: k in r ==> (k in m && r[k] == m[k]) || SentIn(msgs, k, r[k])
    decreases |msgs|
  {
    if msgs == [] then m
    else
      var next := OnMessage(m, msgs[0]);
      var r := OnMessages(next, msgs[1..]);
      assert forall k, d :: SentIn(msgs[1..], k, d) ==> SentIn(msgs, k, d) by {
        forall k, d | SentIn(msgs[1..], k, d) ensures SentIn(msgs, k, d) {
          var j :| 0 <= j < |msgs[1..]| && SentAt(msgs[1..], j, k, d);
          assert SentAt(msgs, j + 1, k, d);
        }
      }
      assert forall k | k in next && !(k in m && next[k] == m[k]) :: SentAt(msgs, 0, k, next[k]);
      r
  }

  /** Message `i` of `msgs` is a supergroup message with key `k` sent at `d`. */
  ghost predicate SentAt(msgs: seq<Message>, i: int, k: Key, d: Timestamp) {
    0 <= i < |msgs| && msgs[i].chatType == Supergroup && KeyOf(msgs[i]) == k && msgs[i].date == d
  }

  /** Some supergroup message of `msgs` has key `k` and was sent at `d`. */
  ghost predicate SentIn(msgs: seq<Message>, k: Key, d: Timestamp) {
    exists i :: SentAt(msgs, i, k, d)
  }

  /** Recording the same key with the same date twice is the same as recording it once. */
  lemma RecordedIdempotent(m: map<Key, Timestamp>, key: Key, date: Timestamp)
    ensures Recorded(Recorded(m, key, date), key, date) == Recorded(m, key, date)
  {
    var once := Recorded(m, key, date);
    var twice := Recorded(once, key, date);
    assert twice.Keys == once.Keys;
  }

  /**
   * An entry stays tracked, with its date, for as long as no later supergroup
   * message overwrites its key or finds it older than the threshold.
   */
  lemma {:induction false} EntrySurvives(m: map<Key, Timestamp>, msgs: seq<Message>, key: Key)
    requires key in m
    requires forall i :: 0 <= i < |msgs| && msgs[i].chatType == Supergroup ==>
               KeyOf(msgs[i]) != key && !ExceedsThreshold(msgs[i].date, m[key])
    ensures key in OnMessages(m, msgs) && OnMessages(m, msgs)[key] == m[key]
    decreases |msgs|
  {
    if msgs != [] {
      var next := OnMessage(m, msgs[0]);
      assert key in next && next[key] == m[key];
      forall i | 0 <= i < |msgs[1..]| && msgs[1..][i].chatType == Supergroup
        ensures KeyOf(msgs[1..][i]) != key && !ExceedsThreshold(msgs[1..][i].date, next[key])
      {
        assert msgs[1..][i] == msgs[i + 1];
      }
      EntrySurvives(next, msgs[1..], key);
    }
  }

  /**
   * A key that is not tracked stays untracked over any sequence of messages
   * in which no supergroup message carries it: the sweep never brings a key
   * back. With `Recorded`, which evicts an entry older than the threshold,
   * this says that an evicted entry stays gone until its key is recorded
   * again.
   */
  lemma {:induction false} StaleEntryStaysEvicted(m: map<Key, Timestamp>, msgs: seq<Message>, key: Key)
    requires key !in m
    requires forall i :: 0 <= i < |msgs| && msgs[i].chatType == Supergroup ==> KeyOf(msgs[i]) != key
    ensures key !in OnMessages(m, msgs)
    decreases |msgs|
  {
    if msgs != [] {
      var next := OnMessage(m, msgs[0]);
      assert key !in next;
      forall i | 0 <= i < |msgs[1..]| && msgs[1..][i].chatType == Supergroup
        ensures KeyOf(msgs[1..][i]) != key
      {
        assert msgs[1..][i] == msgs[i + 1];
      }
      StaleEntryStaysEvicted(next, msgs[1..], key);
    }
  }

  /** The process-wide `message_dates` dictionary and the handlers that touch it. */
  class MessageDates {
    var dates: map<Key, Timestamp>

    constructor ()
      ensures dates == map[]
    {
      dates := map[];
    }

    /**
     * The supergroup message handler: store the message's date under its key,
     * then walk a snapshot of the entries and delete each that is too old
     * relative to the new message's date.
     */
    method HandleMessage(msg: Message)
      modifies this
      ensures dates == OnMessage(old(dates), msg)
    {
      if msg.chatType != Supergroup {
        return;
      }
      dates := dates[KeyOf(msg) := msg.date];
      var snapshot := dates;
      var pending := snapshot.Keys;
      while pending != {}
        invariant pending <= snapshot.Keys
        invariant dates.Keys <= snapshot.Keys
        invariant forall k :: k in dates ==> dates[k] == snapshot[k]
        invariant forall k :: k in pending ==> k in dates
        invariant forall k :: k in snapshot && k !in pending ==>
                    (k in dates <==> !ExceedsThreshold(msg.date, snapshot[k]))
        decreases pending
      {
        var key :| key in pending;
        if ExceedsThreshold(msg.date, snapshot[key]) {
          dates := dates - {key};
        }
        pending := pending - {key};
      }
      assert dates == Swept(snapshot, msg.date);
    }

    /** The reaction handler's `message_dates.get(...)`: a pure read. */
    method Lookup(chatId: int, messageId: int) returns (r: Option<Timestamp>)
      ensures r.Some? <==> (chatId, messageId) in dates
      ensures r.Some? ==> r.value == dates[(chatId, messageId)]
    {
      var key := (chatId, messageId);
      if key in dates {
        r := Some(dates[key]);
      } else {
        r := None;
      }
    }
  }
}
