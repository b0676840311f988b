/**
 * The top-messages widget. Like the top-threads widget, its ranked cache
 * belongs to the statistics library, which is not modelled: the widget is
 * described by the requests it sends to the cache, and the cache's answer to
 * a removal comes in as a parameter.
 */
module TopMessages {
  import opened Mail
  import opened Ranking

  /** `maxCache`: the most messages the cache keeps. */
  const MaxCache: nat := 100

  /** `maxRows`: the most messages listed. */
  const MaxRows: nat := 7

  /** A request to the ranked cache. */
  datatype MessageRequest =
    | CacheAdd(info: MessageInfo)      // `messages.add(...)`
    | CacheRemove(info: MessageInfo)   // `messages.remove(..., true)`: answering whether a reprocess is needed
    | CacheUpdate(info: MessageInfo)   // `messages.update(...)`

  /** `{message, score: _messageScore(message)}`. */
  function InfoOf(m: Message): (info: MessageInfo)
    ensures info.message == m && info.score == MessageScore(m)
  {
    MessageInfo(m, MessageScore(m))
  }

  /** Whether a flag change touches the Read or the Marked bit. */
  predicate RankingFlagsChanged(oldFlags: Flags, newFlags: Flags) {
    oldFlags & READ != newFlags & READ || oldFlags & MARKED != newFlags & MARKED
  }

  /** The requests `updateMessageFlags` sends: one refresh, and only when Read or Marked changed. */
  function FlagRequests(m: Message, oldFlags: Flags, newFlags: Flags): (r: seq<MessageRequest>)
    ensures |r| <= 1
    ensures r != [] <==> HasFlag(oldFlags, READ) != HasFlag(newFlags, READ) || HasFlag(oldFlags, MARKED) != HasFlag(newFlags, MARKED)
    ensures r != [] ==> r[0] == CacheUpdate(InfoOf(m))
  {
    FlagBits(oldFlags, newFlags);
    if RankingFlagsChanged(oldFlags, newFlags) then [CacheUpdate(InfoOf(m))] else []
  }

  /** For a single-bit mask, the masked values differ exactly when the bit is set in one and not the other. */
  lemma FlagBits(oldFlags: Flags, newFlags: Flags)
    ensures (oldFlags & READ != newFlags & READ) <==> HasFlag(oldFlags, READ) != HasFlag(newFlags, READ)
    ensures (oldFlags & MARKED != newFlags & MARKED) <==> HasFlag(oldFlags, MARKED) != HasFlag(newFlags, MARKED)
  {
  }

  /** A message as the host sees it with the given flags: read and flagged mirror the Read and Marked bits. */
  function WithFlags(m: Message, flags: Flags): Message {
    m.(flags := flags, isRead := HasFlag(flags, READ), isFlagged := HasFlag(flags, MARKED))
  }

  /**
   * Skipping the refresh loses nothing: when neither Read nor Marked changed,
   * the message scores the same under its old flags as under its new ones.
   */
  lemma SkippedRefreshKeepsScore(m: Message, oldFlags: Flags, newFlags: Flags)
    requires FlagRequests(m, oldFlags, newFlags) == []
    ensures MessageScore(WithFlags(m, oldFlags)) == MessageScore(WithFlags(m, newFlags))
  {
  }

  /**
   * A flag change that needs a refresh and touches only one of the two bits
   * does change the score, by thirty days.
   */
  lemma RefreshedScoreDiffers(m: Message, oldFlags: Flags, newFlags: Flags)
    requires FlagRequests(m, oldFlags, newFlags) != []
    requires HasFlag(oldFlags, READ) == HasFlag(newFlags, READ) || HasFlag(oldFlags, MARKED) == HasFlag(newFlags, MARKED)
    ensures MessageScore(WithFlags(m, oldFlags)) - MessageScore(WithFlags(m, newFlags)) in {BOOST, -BOOST}
  {
  }

  class TopMessagesWidget {
    /** Between `init` and `uninit`, when `this.messages` exists. */
    var ready: bool
    /** Whether the list needs re-rendering. */
    var stale: bool
    /** The requests sent to the current cache, oldest first. */
    var requests: seq<MessageRequest>
    /** The rows of the `.messages_list` element. */
    var shown: seq<MessageInfo>

    constructor()
      ensures !ready && !stale && requests == [] && shown == []
    {
      ready := false;
      stale := false;
      requests := [];
      shown := [];
    }

    /** `init`: a fresh cache of at most `MaxCache` messages, marked stale. */
    method Init()
      modifies this
      ensures ready && stale && requests == [] && shown == old(shown)
    {
      requests := [];
      stale := true;
      ready := true;
    }

    /** `uninit`: clears the list and drops the cache. */
    method Uninit()
      modifies this
      ensures !ready && shown == [] && requests == [] && stale == old(stale)
    {
      shown := [];
      requests := [];
      ready := false;
    }

    /**
     * `processMessage`: an added message goes into the cache with its score
     * and never asks for a reprocess; a deleted one is removed, and the
     * cache's answer `removed` is passed on as the reprocess signal.
     */
    method ProcessMessage(m: Message, deleted: bool, removed: bool) returns (reprocess: bool)
      requires ready
      modifies this
      ensures ready && stale && shown == old(shown)
      ensures requests == old(requests) + [if deleted then CacheRemove(InfoOf(m)) else CacheAdd(InfoOf(m))]
      ensures reprocess <==> deleted && removed
    {
      stale := true;
      var info := MessageInfo(m, MessageScore(m));
      if !deleted {
        requests := requests + [CacheAdd(info)];
        return false;
      } else {
        requests := requests + [CacheRemove(info)];
        return removed;
      }
    }

    /**
     * `updateMessageFlags`: marks the list stale and refreshes the message's
     * entry only when the Read or the Marked bit changed. Returns nothing,
     * so it never asks for a reprocess.
     */
    method UpdateMessageFlags(m: Message, oldFlags: Flags, newFlags: Flags) returns (reprocess: bool)
      requires ready
      modifies this
      ensures ready && stale && shown == old(shown) && !reprocess
      ensures requests == old(requests) + FlagRequests(m, oldFlags, newFlags)
    {
      stale := true;
      reprocess := false;
      if oldFlags & READ == newFlags & READ && oldFlags & MARKED == newFlags & MARKED {
        return;
      }
      var info := MessageInfo(m, MessageScore(m));
      requests := requests + [CacheUpdate(info)];
    }

    /** `render`: lists the cached messages (`rows`, in the cache's order). */
    method Render(rows: seq<MessageInfo>)
      requires ready
      modifies this
      ensures shown == old(shown) + rows && !stale
      ensures ready && requests == old(requests)
    {
      shown := shown + rows;
      stale := false;
    }

    /** `update`: clears and re-renders a stale list. */
    method Update(rows: seq<MessageInfo>)
      requires ready
      modifies this
      ensures old(stale) ==> shown == rows
      ensures !old(stale) ==> shown == old(shown)
      ensures !stale && ready && requests == old(requests)
    {
      if stale {
        shown := [];
        Render(rows);
      }
    }
  }
}
