/**
 * How a folder's messages become a batch: sorted newest first, cut to the
 * most recent thousand, then worked through in chunks that end where the
 * worker yields to the event loop.
 */
module Batch {
  import opened Mail
  import Ordering

  /** `maxMessages`: at most this many messages are summarized. */
  const MaxMessages: nat := 1000

  /** How often the worker yields: before every hundredth message. */
  const ChunkSize: nat := 100

  /** The sort key of a message: its date. */
  function DateOf(m: Message): int {
    m.date
  }

  /**
   * The batch of a folder: its messages sorted by
   * `(a, b) => dates.get(b) - dates.get(a)`, cut to the newest thousand.
   */
  function BatchOf(messages: seq<Message>): (b: seq<Message>)
    ensures |b| <= MaxMessages
  {
    Ordering.Take(Ordering.SortBy(DateOf, messages), MaxMessages)
  }

  /**
   * The batch is ordered newest first and holds min(n, 1000) of the
   * folder's messages.
   */
  lemma BatchShape(messages: seq<Message>)
    ensures forall i, j :: 0 <= i < j < |BatchOf(messages)| ==> BatchOf(messages)[i].date >= BatchOf(messages)[j].date
    ensures |BatchOf(messages)| == if |messages| > MaxMessages then MaxMessages else |messages|
    ensures multiset(BatchOf(messages)) <= multiset(messages)
  {
    Ordering.TopShape(DateOf, messages, MaxMessages);
  }

  /** No message left out of the batch is newer than a message kept. */
  lemma BatchKeepsNewest(messages: seq<Message>, kept: Message, dropped: Message)
    requires kept in BatchOf(messages)
    requires dropped in multiset(messages) - multiset(BatchOf(messages))
    ensures kept.date >= dropped.date
  {
    Ordering.TopKeepsLargest(DateOf, messages, MaxMessages, kept, dropped);
  }

  /**
   * Whether the worker yields before the message at zero-based position
   * `k`: its counter, the one-based position, is a multiple of a hundred.
   */
  predicate YieldsBefore(k: nat) {
    (k + 1) % ChunkSize == 0
  }

  /** The worker yields once every hundred messages, never before the hundredth. */
  lemma YieldsEveryChunk(k: nat)
    ensures YieldsBefore(k) ==> k + 1 >= ChunkSize
    ensures YieldsBefore(k) <==> YieldsBefore(k + ChunkSize)
  {
  }

  /**
   * Where the worker's next chunk ends when it resumes at message `start`
   * of `n`: at the next message after `start` before which the generator
   * yields, or at the end of the batch. The message at `start` itself is
   * not checked again: the worker resumes right after its `yield`.
   */
  function NextYield(start: nat, n: nat): (r: nat)
    ensures start < n ==> start < r
    ensures r <= n
    ensures r < n ==> YieldsBefore(r)
    ensures forall k :: start < k < r ==> !YieldsBefore(k)
  {
    var next := (start + 1) / ChunkSize * ChunkSize + (ChunkSize - 1);
    if next < n then next else n
  }
}
