/**
 * The top-correspondents widget: a count of messages per correspondent,
 * keyed by email address (or display name when there is no address), with a
 * histogram of the message dates per correspondent. Authors are counted in
 * ordinary folders, recipients in outgoing ones.
 */
module Correspondents {
  import opened Mail
  import Ordering

  /** `maxRows`: the widget lists at most this many correspondents. */
  const MaxRows: nat := 7

  /** One entry of `this.correspondents`; the histogram is the bag of dates added to it. */
  datatype Correspondent = Correspondent(address: Address, count: int, histogram: multiset<int>)

  type Book = map<string, Correspondent>

  /** `address.email || address.name`. */
  function Key(a: Address): (k: string)
    ensures a.email != "" ==> k == a.email
    ensures a.email == "" ==> k == a.name
  {
    if a.email != "" then a.email else a.name
  }

  /**
   * The parsed header a message contributes: `mime2DecodedTo ||
   * mime2DecodedRecipients` in an outgoing folder, the author otherwise.
   * The fallback is decided on the To string, not on what it parses to, so a
   * non-empty To header that names no mailbox contributes nothing.
   */
  function HeaderAddresses(m: Message, outgoing: bool): (r: seq<Address>)
    ensures !outgoing ==> r == m.author
    ensures outgoing && m.hasTo ==> r == m.to
    ensures outgoing && !m.hasTo ==> r == m.recipients
  {
    if outgoing then (if m.hasTo then m.to else m.recipients) else m.author
  }

  /**
   * An outgoing message whose To header is an empty group counts no
   * correspondent, even when its recipients header names one.
   */
  lemma EmptyGroupCountsNobody(m: Message)
    requires m.hasTo && m.to == [] && m.recipients != []
    ensures HeaderAddresses(m, true) == []
    ensures AddAll(map[], HeaderAddresses(m, true), m.date) == map[]
  {
  }

  /** Every entry counts at least one message. */
  predicate Positive(cs: Book) {
    forall k :: k in cs ==> cs[k].count >= 1
  }

  /** How many messages are counted under `k` (none when it has no entry). */
  function Count(cs: Book, k: string): int {
    if k in cs then cs[k].count else 0
  }

  /** The dates recorded under `k` (none when it has no entry). */
  function Dates(cs: Book, k: string): multiset<int> {
    if k in cs then cs[k].histogram else multiset{}
  }

  /** `n` copies of `d`. */
  function Copies(d: int, n: nat): (r: multiset<int>)
    ensures |r| == n
  {
    if n == 0 then multiset{} else Copies(d, n - 1) + multiset{d}
  }

  /**
   * The entry an added address is counted in, before its count goes up: a
   * fresh one with count zero for a new key; for a known key whose display
   * name differs, the entry with the bare email address; otherwise the entry.
   */
  function EntryFor(cs: Book, a: Address): (c: Correspondent)
    ensures c.count == Count(cs, Key(a)) && c.histogram == Dates(cs, Key(a))
  {
    var k := Key(a);
    if k !in cs then Correspondent(a, 0, multiset{})
    else if cs[k].address.name != a.name then cs[k].(address := Address("", a.email))
    else cs[k]
  }

  /**
   * One address of an added message: a new key gets an entry with this
   * address; a known key whose display name differs keeps only the bare
   * email address; either way the count goes up by one and the date is
   * recorded.
   */
  function AddOne(cs: Book, a: Address, date: int): (r: Book)
    ensures Key(a) in r
    ensures Positive(cs) ==> Positive(r)
  {
    var c := EntryFor(cs, a);
    cs[Key(a) := c.(count := c.count + 1, histogram := c.histogram + multiset{date})]
  }

  /**
   * One address of a deleted message: an unknown key is skipped; a known
   * one is counted down, its date removed, and dropped once it counts zero.
   */
  function RemoveOne(cs: Book, a: Address, date: int): (r: Book)
    requires Positive(cs)
    ensures Positive(r)
  {
    var k := Key(a);
    if k !in cs then cs
    else
      var c := cs[k].(count := cs[k].count - 1, histogram := cs[k].histogram - multiset{date});
      if c.count == 0 then cs - {k} else cs[k := c]
  }

  /** What adding one address does to the entry of key `k`. */
  lemma AddOneAt(cs: Book, a: Address, date: int, k: string)
    ensures k in AddOne(cs, a, date) <==> k in cs || k == Key(a)
    ensures Count(AddOne(cs, a, date), k) == Count(cs, k) + if k == Key(a) then 1 else 0
    ensures Dates(AddOne(cs, a, date), k) == Dates(cs, k) + if k == Key(a) then multiset{date} else multiset{}
  {
  }

  /** What deleting one address does to the entry of key `k`. */
  lemma RemoveOneAt(cs: Book, a: Address, date: int, k: string)
    requires Positive(cs)
    ensures k != Key(a) ==> Count(RemoveOne(cs, a, date), k) == Count(cs, k) && Dates(RemoveOne(cs, a, date), k) == Dates(cs, k)
    ensures k == Key(a) ==> Count(RemoveOne(cs, a, date), k) == if Count(cs, k) > 0 then Count(cs, k) - 1 else 0
    ensures k == Key(a) ==> Dates(RemoveOne(cs, a, date), k) == if Count(cs, k) > 1 then Dates(cs, k) - multiset{date} else multiset{}
  {
  }

  /** How many of `addrs` have key `k`. */
  function Occ(k: string, addrs: seq<Address>): nat {
    if addrs == [] then 0
    else Occ(k, addrs[..|addrs| - 1]) + (if Key(addrs[|addrs| - 1]) == k then 1 else 0)
  }

  /** The `!deleted` loop of `processMessage`: every address, in order. */
  function AddAll(cs: Book, addrs: seq<Address>, date: int): (r: Book)
    ensures Positive(cs) ==> Positive(r)
  {
    if addrs == [] then cs
    else AddOne(AddAll(cs, addrs[..|addrs| - 1], date), addrs[|addrs| - 1], date)
  }

  /** The `deleted` loop of `processMessage`: every address, in order. */
  function RemoveAll(cs: Book, addrs: seq<Address>, date: int): (r: Book)
    requires Positive(cs)
    ensures Positive(r)
  {
    if addrs == [] then cs
    else RemoveOne(RemoveAll(cs, addrs[..|addrs| - 1], date), addrs[|addrs| - 1], date)
  }

  /** The body of the adding loop, with the entry found or made for `a`, is one `AddOne`. */
  lemma AddStep(cs: Book, a: Address, date: int, c: Correspondent)
    requires c == EntryFor(cs, a)
    ensures cs[Key(a) := c.(count := c.count + 1, histogram := c.histogram + multiset{date})] == AddOne(cs, a, date)
  {
  }

  /** The loop of `processMessage` after one more address. */
  lemma AddAllSnoc(cs: Book, addrs: seq<Address>, i: nat, date: int)
    requires i < |addrs|
    ensures AddAll(cs, addrs[..i + 1], date) == AddOne(AddAll(cs, addrs[..i], date), addrs[i], date)
  {
    assert addrs[..i + 1][..i] == addrs[..i];
  }

  /** The deleting loop of `processMessage` after one more address. */
  lemma RemoveAllSnoc(cs: Book, addrs: seq<Address>, i: nat, date: int)
    requires Positive(cs) && i < |addrs|
    ensures RemoveAll(cs, addrs[..i + 1], date) == RemoveOne(RemoveAll(cs, addrs[..i], date), addrs[i], date)
  {
    assert addrs[..i + 1][..i] == addrs[..i];
  }

  /**
   * Adding a message counts it once per address under each key: a key's
   * count grows by the number of the message's addresses with that key, and
   * the key has an entry afterwards exactly when it had one or occurs.
   */
  lemma {:induction false} AddAllCounts(cs: Book, addrs: seq<Address>, date: int, k: string)
    ensures Count(AddAll(cs, addrs, date), k) == Count(cs, k) + Occ(k, addrs)
    ensures k in AddAll(cs, addrs, date) <==> k in cs || Occ(k, addrs) > 0
  {
    if addrs != [] {
      var pre := addrs[..|addrs| - 1];
      var a := addrs[|addrs| - 1];
      AddAllCounts(cs, pre, date, k);
      AddOneAt(AddAll(cs, pre, date), a, date, k);
    }
  }

  /** Adding a message puts one copy of its date per address into that key's histogram. */
  lemma {:induction false} AddAllDates(cs: Book, addrs: seq<Address>, date: int, k: string)
    ensures Dates(AddAll(cs, addrs, date), k) == Dates(cs, k) + Copies(date, Occ(k, addrs))
  {
    if addrs != [] {
      var pre := addrs[..|addrs| - 1];
      var a := addrs[|addrs| - 1];
      AddAllDates(cs, pre, date, k);
      AddOneAt(AddAll(cs, pre, date), a, date, k);
      if Key(a) == k {
        CopiesGrow(Dates(cs, k), date, Occ(k, pre));
      }
    }
  }

  /**
   * Deleting a message counts it down once per address under each key that
   * is still present: a key's count drops by the number of the message's
   * addresses with that key, to no less than zero.
   */
  lemma {:induction false} RemoveAllCounts(cs: Book, addrs: seq<Address>, date: int, k: string)
    requires Positive(cs)
    ensures Count(RemoveAll(cs, addrs, date), k) == if Count(cs, k) > Occ(k, addrs) then Count(cs, k) - Occ(k, addrs) else 0
  {
    if addrs != [] {
      var pre := addrs[..|addrs| - 1];
      var a := addrs[|addrs| - 1];
      RemoveAllCounts(cs, pre, date, k);
      RemoveOneAt(RemoveAll(cs, pre, date), a, date, k);
    }
  }

  /**
   * Deleting a message takes one copy of its date out of a key's histogram
   * per address with that key, and the histogram goes with the key once the
   * count reaches zero.
   */
  lemma {:induction false} RemoveAllDates(cs: Book, addrs: seq<Address>, date: int, k: string)
    requires Positive(cs)
    ensures Dates(RemoveAll(cs, addrs, date), k) ==
            if Count(cs, k) > Occ(k, addrs) then Dates(cs, k) - Copies(date, Occ(k, addrs)) else multiset{}
  {
    if addrs != [] {
      var pre := addrs[..|addrs| - 1];
      var a := addrs[|addrs| - 1];
      RemoveAllCounts(cs, pre, date, k);
      RemoveAllDates(cs, pre, date, k);
      var mid := RemoveAll(cs, pre, date);
      RemoveOneAt(mid, a, date, k);
      var n := Occ(k, pre);
      if Key(a) == k {
        assert Occ(k, addrs) == n + 1;
        if Count(cs, k) > n + 1 {
          assert Count(mid, k) == Count(cs, k) - n > 1;
          assert Dates(mid, k) == Dates(cs, k) - Copies(date, n);
          CopiesStep(Dates(cs, k), date, n);
        } else {
          assert Count(mid, k) <= 1;
        }
      }
    }
  }

  /** Adding one more copy of `d` is adding `n + 1` copies. */
  lemma CopiesGrow(m: multiset<int>, d: int, n: nat)
    ensures (m + Copies(d, n)) + multiset{d} == m + Copies(d, n + 1)
  {
    assert Copies(d, n + 1) == Copies(d, n) + multiset{d};
  }

  /** Taking one more copy of `d` away is taking `n + 1` copies away. */
  lemma CopiesStep(m: multiset<int>, d: int, n: nat)
    ensures (m - Copies(d, n)) - multiset{d} == m - Copies(d, n + 1)
  {
    assert Copies(d, n + 1) == Copies(d, n) + multiset{d};
  }

  /** Adding copies of `d` and taking as many away gives the histogram back. */
  lemma CopiesCancel(m: multiset<int>, d: int, n: nat)
    ensures (m + Copies(d, n)) - Copies(d, n) == m
  {
  }

  /** A positive book has an entry exactly for the keys that count something. */
  lemma PositiveKeys(cs: Book, k: string)
    requires Positive(cs)
    ensures k in cs <==> Count(cs, k) > 0
  {
  }

  /**
   * Adding a message and then deleting it leaves the same keys with the same
   * counts and histograms (the stored address may have lost its display name).
   */
  lemma AddRemoveRoundTrip(cs: Book, addrs: seq<Address>, date: int)
    requires Positive(cs)
    ensures Positive(AddAll(cs, addrs, date))
    ensures var r := RemoveAll(AddAll(cs, addrs, date), addrs, date);
            && r.Keys == cs.Keys
            && forall k :: k in cs ==> r[k].count == cs[k].count && r[k].histogram == cs[k].histogram
  {
    AddAllCounts(cs, addrs, date, "");
    var added := AddAll(cs, addrs, date);
    var r := RemoveAll(added, addrs, date);
    forall k
      ensures k in r <==> k in cs
      ensures k in cs ==> r[k].count == cs[k].count && r[k].histogram == cs[k].histogram
    {
      AddAllCounts(cs, addrs, date, k);
      AddAllDates(cs, addrs, date, k);
      RemoveAllCounts(added, addrs, date, k);
      RemoveAllDates(added, addrs, date, k);
      PositiveKeys(r, k);
      PositiveKeys(cs, k);
      CopiesCancel(Dates(cs, k), date, Occ(k, addrs));
    }
  }

  /** The rank key of an entry: its message count. */
  function CountOf(c: Correspondent): int {
    c.count
  }

  /** `correspondentData.sort((a, b) => b.count - a.count)` cut to `maxRows` rows. */
  function TopRows(entries: seq<Correspondent>): (r: seq<Correspondent>)
    ensures |r| == if |entries| > MaxRows then MaxRows else |entries|
    ensures forall i, j :: 0 <= i < j < |r| ==> r[i].count >= r[j].count
  {
    Ordering.Take(Ordering.SortBy(CountOf, entries), MaxRows)
  }

  /**
   * The listed rows are at most seven of the entries, by descending count,
   * and no entry left out counts more messages than a listed one.
   */
  lemma TopRowsRanked(entries: seq<Correspondent>, listed: Correspondent, omitted: Correspondent)
    requires listed in TopRows(entries)
    requires omitted in multiset(entries) - multiset(TopRows(entries))
    ensures |TopRows(entries)| == if |entries| > MaxRows then MaxRows else |entries|
    ensures forall i, j :: 0 <= i < j < |TopRows(entries)| ==> TopRows(entries)[i].count >= TopRows(entries)[j].count
    ensures multiset(TopRows(entries)) <= multiset(entries)
    ensures listed.count >= omitted.count
  {
    Ordering.TopShape(CountOf, entries, MaxRows);
    assert Ordering.Descending(CountOf, TopRows(entries));
    Ordering.TopKeepsLargest(CountOf, entries, MaxRows, listed, omitted);
  }

  /** The entries of `cs` in the order `order` lists their keys. */
  function Entries(cs: Book, order: seq<string>): (r: seq<Correspondent>)
    requires forall k :: k in order ==> k in cs
    ensures |r| == |order|
    ensures forall i :: 0 <= i < |order| ==> r[i] == cs[order[i]]
  {
    seq(|order|, i requires 0 <= i < |order| => cs[order[i]])
  }

  /** Each key of `order` exactly once, and exactly the keys of `cs`: an enumeration of the book. */
  ghost predicate EnumeratesKeys(order: seq<string>, cs: Book) {
    && (forall k :: k in order <==> k in cs)
    && (forall i, j :: 0 <= i < j < |order| ==> order[i] != order[j])
  }

  class TopCorrespondentsWidget {
    /** `this.correspondents`: empty outside an init/uninit session. */
    var correspondents: Book
    /** Whether the list needs re-rendering. */
    var stale: bool
    /** Between `init` and `uninit`, when `this.correspondents` exists. */
    var ready: bool
    /** The rows of the `.correspondents_list` element. */
    var shown: seq<Correspondent>

    predicate Valid()
      reads this
    {
      Positive(correspondents)
    }

    constructor()
      ensures Valid() && !ready && !stale && correspondents == map[] && shown == []
    {
      correspondents := map[];
      stale := false;
      ready := false;
      shown := [];
    }

    /** `init`: an empty count map, marked stale. */
    method Init()
      modifies this
      ensures Valid() && ready && stale && correspondents == map[] && shown == old(shown)
    {
      correspondents := map[];
      stale := true;
      ready := true;
    }

    /** `uninit`: clears the list and drops the count map. */
    method Uninit()
      modifies this
      ensures Valid() && !ready && correspondents == map[] && shown == [] && stale == old(stale)
    {
      shown := [];
      correspondents := map[];
      ready := false;
    }

    /**
     * `processMessage`: counts the message up (or, when deleted, down) under
     * each address of its header; never asks for a reprocess.
     */
    method ProcessMessage(m: Message, deleted: bool, outgoing: bool) returns (reprocess: bool)
      requires ready && Valid()
      modifies this
      ensures Valid() && ready && stale && !reprocess && shown == old(shown)
      ensures correspondents ==
              if deleted then RemoveAll(old(correspondents), HeaderAddresses(m, outgoing), m.date)
              else AddAll(old(correspondents), HeaderAddresses(m, outgoing), m.date)
    {
      stale := true;
      var addrs := HeaderAddresses(m, outgoing);
      if !deleted {
        AddAddresses(addrs, m.date);
      } else {
        RemoveAddresses(addrs, m.date);
      }
      reprocess := false;
    }

    /** The `!deleted` loop of `processMessage`. */
    method AddAddresses(addrs: seq<Address>, date: int)
      requires Valid()
      modifies this
      ensures Valid() && correspondents == AddAll(old(correspondents), addrs, date)
      ensures ready == old(ready) && stale == old(stale) && shown == old(shown)
    {
      var i := 0;
      while i < |addrs|
        invariant 0 <= i <= |addrs|
        invariant correspondents == AddAll(old(correspondents), addrs[..i], date)
        invariant ready == old(ready) && stale == old(stale) && shown == old(shown)
      {
        var a := addrs[i];
        var key := Key(a);
        var c: Correspondent;
        if key !in correspondents {
          c := Correspondent(a, 0, multiset{});
        } else if correspondents[key].address.name != a.name {
          c := correspondents[key].(address := Address("", a.email));
        } else {
          c := correspondents[key];
        }
        AddStep(correspondents, a, date, c);
        AddAllSnoc(old(correspondents), addrs, i, date);
        correspondents := correspondents[key := c.(count := c.count + 1, histogram := c.histogram + multiset{date})];
        i := i + 1;
      }
      assert addrs[..i] == addrs;
    }

    /** The `deleted` loop of `processMessage`. */
    method RemoveAddresses(addrs: seq<Address>, date: int)
      requires Valid()
      modifies this
      ensures Valid() && correspondents == RemoveAll(old(correspondents), addrs, date)
      ensures ready == old(ready) && stale == old(stale) && shown == old(shown)
    {
      var i := 0;
      while i < |addrs|
        invariant 0 <= i <= |addrs|
        invariant Positive(correspondents)
        invariant correspondents == RemoveAll(old(correspondents), addrs[..i], date)
        invariant ready == old(ready) && stale == old(stale) && shown == old(shown)
      {
        var key := Key(addrs[i]);
        RemoveAllSnoc(old(correspondents), addrs, i, date);
        if key in correspondents {
          var c := correspondents[key].(count := correspondents[key].count - 1, histogram := correspondents[key].histogram - multiset{date});
          if c.count == 0 {
            correspondents := correspondents - {key};
          } else {
            correspondents := correspondents[key := c];
          }
        }
        i := i + 1;
      }
      assert addrs[..i] == addrs;
    }

    /**
     * `render`: gathers the entries in the order `for (let key in ...)`
     * enumerates them (a parameter) and appends the top rows to the list.
     */
    method Render(order: seq<string>) returns (rows: seq<Correspondent>)
      requires ready && EnumeratesKeys(order, correspondents)
      modifies this
      ensures !stale && ready && correspondents == old(correspondents)
      ensures rows == TopRows(Entries(correspondents, order))
      ensures shown == old(shown) + rows
    {
      var data: seq<Correspondent> := [];
      var i := 0;
      while i < |order|
        invariant 0 <= i <= |order|
        invariant data == Entries(correspondents, order[..i])
      {
        data := data + [correspondents[order[i]]];
        i := i + 1;
      }
      assert order[..i] == order;
      rows := TopRows(data);
      shown := shown + rows;
      stale := false;
    }

    /** `update`: clears and re-renders the list when it is stale. */
    method Update(order: seq<string>)
      requires ready && EnumeratesKeys(order, correspondents)
      modifies this
      ensures !stale && ready && correspondents == old(correspondents)
      ensures old(stale) ==> shown == TopRows(Entries(correspondents, order))
      ensures !old(stale) ==> shown == old(shown)
    {
      if stale {
        shown := [];
        var rows := Render(order);
      }
    }
  }
}
