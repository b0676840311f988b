/**
 * The pure ranking helpers of the top-messages and top-threads widgets:
 * a message's relevance score, and the comparators and equality tests they
 * hand to their ranked caches. A comparator returns a negative number when
 * its first argument ranks first, as JavaScript's Array.prototype.sort
 * expects.
 */
module Ranking {
  import opened Mail

  /** One day in microseconds. */
  const DAY: int := 24 * 60 * 60 * 1000000

  /** The boost an unread or a flagged message gets: thirty days. */
  const BOOST: int := 30 * DAY

  /** A message together with its score, as cached by the top-messages widget. */
  datatype MessageInfo = MessageInfo(message: Message, score: int)

  /** A thread as cached by the top-threads widget. */
  datatype ThreadEntry = ThreadEntry(threadKey: int, rootKey: int, count: int, date: int)

  /**
   * A message's relevance: its date, moved thirty days later if it is unread
   * and another thirty days if it is flagged.
   */
  function MessageScore(m: Message): (score: int)
    ensures m.date <= score <= m.date + 2 * BOOST
    ensures score == m.date <==> m.isRead && !m.isFlagged
    ensures score == m.date + 2 * BOOST <==> !m.isRead && m.isFlagged
    ensures (score - m.date) % BOOST == 0
  {
    var score := m.date;
    var score := if !m.isRead then score + BOOST else score;
    if m.isFlagged then score + BOOST else score
  }

  /** The intended order of messages: higher score first, then higher key. */
  predicate MessageRanksBefore(a: MessageInfo, b: MessageInfo) {
    a.score > b.score || (a.score == b.score && a.message.key > b.message.key)
  }

  /**
   * `b.score - a.score || b.message.messageKey - a.message.messageKey`: the
   * score difference, or the key difference when the scores are equal.
   */
  function MessageCompare(a: MessageInfo, b: MessageInfo): (r: int)
    ensures r < 0 <==> MessageRanksBefore(a, b)
    ensures r > 0 <==> MessageRanksBefore(b, a)
    ensures r == 0 <==> a.score == b.score && a.message.key == b.message.key
  {
    var byScore := b.score - a.score;
    if byScore != 0 then byScore else b.message.key - a.message.key
  }

  /** Two cached messages are the same entry when they are the same header. */
  function MessageEquals(a: MessageInfo, b: MessageInfo): (r: bool)
    ensures MessageCompare(a, b) == 0 ==> r
  {
    a.message.key == b.message.key
  }

  /** The intended order of threads: more messages, then newer, then higher key. */
  predicate ThreadRanksBefore(a: ThreadEntry, b: ThreadEntry) {
    || a.count > b.count
    || (a.count == b.count && a.date > b.date)
    || (a.count == b.count && a.date == b.date && a.threadKey > b.threadKey)
  }

  /** `b.count - a.count || b.date - a.date || b.threadKey - a.threadKey`. */
  function ThreadCompare(a: ThreadEntry, b: ThreadEntry): (r: int)
    ensures r < 0 <==> ThreadRanksBefore(a, b)
    ensures r > 0 <==> ThreadRanksBefore(b, a)
    ensures r == 0 <==> a.count == b.count && a.date == b.date && a.threadKey == b.threadKey
  {
    var byCount := b.count - a.count;
    var byDate := b.date - a.date;
    if byCount != 0 then byCount
    else if byDate != 0 then byDate
    else b.threadKey - a.threadKey
  }

  /** Two cached threads are the same entry when their thread keys agree. */
  function ThreadEquals(a: ThreadEntry, b: ThreadEntry): (r: bool)
    ensures ThreadCompare(a, b) == 0 ==> r
  {
    a.threadKey == b.threadKey
  }

  /** The message comparator is antisymmetric: swapping its arguments negates it. */
  lemma MessageCompareAntisymmetric(a: MessageInfo, b: MessageInfo)
    ensures MessageCompare(a, b) == -MessageCompare(b, a)
  {
  }

  /** The message comparator is transitive, so sorting with it is well defined. */
  lemma MessageCompareTransitive(a: MessageInfo, b: MessageInfo, c: MessageInfo)
    requires MessageCompare(a, b) < 0 && MessageCompare(b, c) < 0
    ensures MessageCompare(a, c) < 0
  {
  }

  /** The thread comparator is antisymmetric. */
  lemma ThreadCompareAntisymmetric(a: ThreadEntry, b: ThreadEntry)
    ensures ThreadCompare(a, b) == -ThreadCompare(b, a)
  {
  }

  /** The thread comparator is transitive. */
  lemma ThreadCompareTransitive(a: ThreadEntry, b: ThreadEntry, c: ThreadEntry)
    requires ThreadCompare(a, b) < 0 && ThreadCompare(b, c) < 0
    ensures ThreadCompare(a, c) < 0
  {
  }

  /**
   * The same thread with a different message count is not tied with itself:
   * the cache must find an entry by ThreadEquals, not by the comparator.
   */
  lemma ThreadEqualsCoarserThanCompare(a: ThreadEntry)
    ensures ThreadEquals(a, a.(count := a.count + 1))
    ensures ThreadCompare(a, a.(count := a.count + 1)) != 0
  {
  }

  /**
   * An unread message outranks any read, unflagged message less than thirty
   * days newer, whatever their keys.
   */
  lemma UnreadOutranksRecentRead(a: Message, b: Message)
    requires !a.isRead && b.isRead && !b.isFlagged
    requires b.date < a.date + BOOST
    ensures MessageCompare(MessageInfo(a, MessageScore(a)), MessageInfo(b, MessageScore(b))) < 0
  {
  }
}
