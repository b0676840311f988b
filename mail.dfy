/**
 * The host's message and folder records, reduced to the fields the folder
 * summary reads. The host owns these; the summary never changes them.
 */
module Mail {

  datatype Option<+T> = None | Some(value: T)

  /** A message's flag bitset (nsMsgMessageFlags). */
  type Flags = bv32

  /** Bits of nsMsgMessageFlags that the summary tests. */
  const READ: Flags := 0x0000_0001
  const MARKED: Flags := 0x0000_0004
  const IGNORED: Flags := 0x0004_0000

  /** One parsed mailbox of an address header. */
  datatype Address = Address(name: string, email: string)

  /**
   * A message header snapshot. `date` is in microseconds; `key` is the
   * messageKey, which identifies the header within its folder; `keywords` is
   * the space-separated "keywords" string property; `author`, `to` and
   * `recipients` are the parsed From, To and recipients headers; `hasTo` is
   * true iff the decoded To string is non-empty, which it can be while naming
   * no mailbox (an empty group such as `undisclosed-recipients:;`).
   */
  datatype Message = Message(
    key: int,
    date: int,
    flags: Flags,
    isKilled: bool,
    isRead: bool,
    isFlagged: bool,
    keywords: string,
    author: seq<Address>,
    to: seq<Address>,
    hasTo: bool,
    recipients: seq<Address>)

  /** A folder: its identity and whether it is virtual or outgoing. */
  datatype Folder = Folder(id: int, isVirtual: bool, isOutgoing: bool)

  /** True iff `bit` is set in `flags`. */
  predicate HasFlag(flags: Flags, bit: Flags) {
    flags & bit != 0
  }
}
