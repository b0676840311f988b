/**
 * The top-threads widget. Its ranked cache of threads belongs to the
 * statistics library, which is not modelled: the widget is described by the
 * requests it sends to the cache and the edits it makes to the date
 * histograms the cache's entries carry, and the cache's answers come in as
 * parameters.
 */
module Threads {
  import opened Mail
  import opened Ranking

  /** `maxCache`: the most threads the cache keeps. */
  const MaxCache: nat := 100

  /** `maxRows`: the most threads listed. */
  const MaxRows: nat := 7

  /** The thread containing a message, as the host's database reports it. */
  datatype Thread = Thread(threadKey: int, rootKey: int, numChildren: nat, newestMsgDate: int)

  /** A request to the ranked cache. */
  datatype ThreadRequest =
    | CacheUpdate(entry: ThreadEntry)   // `threads.update(...)`: insert or refresh, answering the entry's index or null
    | CacheRemove(threadKey: int)       // `threads.remove(..., false)`: answering whether a reprocess is needed
    | CacheIndexOf(threadKey: int)      // `threads.indexOf(...)`: answering the entry's index or null

  /**
   * An edit of the date histogram carried by the cache entry of the thread
   * `threadKey` (the widget reaches the entry through the index the cache
   * answers, and the cache finds it by its thread key).
   */
  datatype HistogramEdit = AddDate(threadKey: int, date: int) | RemoveDate(threadKey: int, date: int)

  /** The cache entry for a thread: its key, root, message count and newest date. */
  function EntryOf(t: Thread): ThreadEntry {
    ThreadEntry(t.threadKey, t.rootKey, t.numChildren, t.newestMsgDate)
  }

  /**
   * The one request `processMessage` sends: a thread that still has messages
   * is refreshed when a message is added and looked up when one is deleted;
   * an empty thread is removed either way.
   */
  function RequestFor(deleted: bool, t: Thread): (r: ThreadRequest)
    ensures r.CacheUpdate? <==> !deleted && t.numChildren > 0
    ensures r.CacheRemove? <==> t.numChildren == 0
    ensures r.CacheIndexOf? <==> deleted && t.numChildren > 0
    ensures r.CacheUpdate? ==> r.entry.threadKey == t.threadKey && r.entry.count == t.numChildren && r.entry.date == t.newestMsgDate
    ensures !r.CacheUpdate? ==> r.threadKey == t.threadKey
  {
    if !deleted && t.numChildren != 0 then CacheUpdate(EntryOf(t))
    else if t.numChildren == 0 then CacheRemove(t.threadKey)
    else CacheIndexOf(t.threadKey)
  }

  /**
   * The histogram edits that follow the cache's answer `index`: the date is
   * added to the histogram of a refreshed thread that the cache kept, and
   * taken out of that of a looked-up thread that it holds.
   */
  function EditsFor(request: ThreadRequest, index: Option<nat>, date: int): (r: seq<HistogramEdit>)
    ensures |r| <= 1
    ensures r != [] <==> index.Some? && !request.CacheRemove?
    ensures r != [] && request.CacheUpdate? ==> r[0] == AddDate(request.entry.threadKey, date)
    ensures r != [] && request.CacheIndexOf? ==> r[0] == RemoveDate(request.threadKey, date)
  {
    match (request, index)
    case (CacheUpdate(e), Some(_)) => [AddDate(e.threadKey, date)]
    case (CacheIndexOf(k), Some(_)) => [RemoveDate(k, date)]
    case _ => []
  }

  /** The dates in the histogram of thread `threadKey` after a sequence of edits. */
  function HistogramOf(edits: seq<HistogramEdit>, threadKey: int): multiset<int> {
    if edits == [] then multiset{}
    else
      var before := HistogramOf(edits[..|edits| - 1], threadKey);
      match edits[|edits| - 1]
      case AddDate(k, d) => if k == threadKey then before + multiset{d} else before
      case RemoveDate(k, d) => if k == threadKey then before - multiset{d} else before
  }

  /** A message of one thread leaves every other thread's histogram alone. */
  lemma OtherThreadsUntouched(edits: seq<HistogramEdit>, deleted: bool, t: Thread, index: Option<nat>, date: int, threadKey: int)
    requires threadKey != t.threadKey
    ensures HistogramOf(edits + EditsFor(RequestFor(deleted, t), index, date), threadKey) == HistogramOf(edits, threadKey)
  {
    var next := edits + EditsFor(RequestFor(deleted, t), index, date);
    if next != edits {
      assert next[..|next| - 1] == edits;
    }
  }

  /**
   * Adding a message to a live thread and then deleting it, while the cache
   * keeps the thread (it answers an index both times, whichever positions
   * the thread has), leaves every thread's histogram as it was.
   */
  lemma AddThenDeleteCancels(edits: seq<HistogramEdit>, t: Thread, i: nat, j: nat, date: int, threadKey: int)
    requires t.numChildren > 0
    ensures var added := edits + EditsFor(RequestFor(false, t), Some(i), date);
            HistogramOf(added + EditsFor(RequestFor(true, t), Some(j), date), threadKey) == HistogramOf(edits, threadKey)
  {
    var added := edits + [AddDate(t.threadKey, date)];
    var removed := added + [RemoveDate(t.threadKey, date)];
    assert removed[..|removed| - 1] == added;
    assert added[..|added| - 1] == edits;
  }

  class TopThreadsWidget {
    /** Between `init` and `uninit`, when `this.threads` exists. */
    var ready: bool
    /** Whether the list needs re-rendering. */
    var stale: bool
    /** The requests sent to the current cache, oldest first. */
    var requests: seq<ThreadRequest>
    /** The histogram edits made to the current cache's entries, oldest first. */
    var edits: seq<HistogramEdit>
    /** The rows of the `.threads_list` element. */
    var shown: seq<ThreadEntry>

    constructor()
      ensures !ready && !stale && requests == [] && edits == [] && shown == []
    {
      ready := false;
      stale := false;
      requests := [];
      edits := [];
      shown := [];
    }

    /** `init`: a fresh cache of at most `MaxCache` threads, marked stale. */
    method Init()
      modifies this
      ensures ready && stale && requests == [] && edits == [] && shown == old(shown)
    {
      requests := [];
      edits := [];
      stale := true;
      ready := true;
    }

    /** `uninit`: clears the list and drops the cache. */
    method Uninit()
      modifies this
      ensures !ready && shown == [] && requests == [] && edits == [] && stale == old(stale)
    {
      shown := [];
      requests := [];
      edits := [];
      ready := false;
    }

    /**
     * `processMessage` for a message of thread `t`. `index` is the cache's
     * answer to a refresh or a lookup, `removed` its answer to a removal;
     * only the answer to the request actually sent is used. Asks for a
     * reprocess exactly when it removed an empty thread and the cache said so.
     */
    method ProcessMessage(m: Message, deleted: bool, t: Thread, index: Option<nat>, removed: bool)
      returns (reprocess: bool)
      requires ready
      modifies this
      ensures ready && stale && shown == old(shown)
      ensures requests == old(requests) + [RequestFor(deleted, t)]
      ensures edits == old(edits) + EditsFor(RequestFor(deleted, t), index, m.date)
      ensures reprocess <==> t.numChildren == 0 && removed
    {
      stale := true;
      var threadKey := t.threadKey;
      reprocess := false;
      if !deleted && t.numChildren != 0 {
        requests := requests + [CacheUpdate(ThreadEntry(threadKey, t.rootKey, t.numChildren, t.newestMsgDate))];
        if index.Some? {
          edits := edits + [AddDate(threadKey, m.date)];
        }
      } else if t.numChildren == 0 {
        requests := requests + [CacheRemove(threadKey)];
        reprocess := removed;
      } else if deleted {
        requests := requests + [CacheIndexOf(threadKey)];
        if index.Some? {
          edits := edits + [RemoveDate(threadKey, m.date)];
        }
      }
    }

    /**
     * `render`: lists the cached threads (`rows`, in the cache's order). It
     * sets `stale` to true, not false, so every later `update` re-renders.
     */
    method Render(rows: seq<ThreadEntry>)
      requires ready
      modifies this
      ensures shown == old(shown) + rows && stale
      ensures ready && requests == old(requests) && edits == old(edits)
    {
      shown := shown + rows;
      stale := true;
    }

    /** `update`: clears and re-renders a stale list. */
    method Update(rows: seq<ThreadEntry>)
      requires ready
      modifies this
      ensures old(stale) ==> shown == rows
      ensures !old(stale) ==> shown == old(shown)
      ensures stale == old(stale)
      ensures ready && requests == old(requests) && edits == old(edits)
    {
      if stale {
        shown := [];
        Render(rows);
      }
    }
  }
}
