/**
 * The tag-dots widget: a count per known tag of the messages carrying it,
 * and one dot per tagged message listing the known tags it carries.
 */
module TagDots {
  import opened Mail
  import opened Keywords

  /** An entry of `allTags`: a known tag (by key) and how many messages carry it. */
  datatype TagInfo = TagInfo(key: string, count: int)

  /** An entry of `dots`: a message (by key) and the keys of its known tags, in `allTags` order. */
  datatype Dot = Dot(message: int, tags: seq<string>)

  /** The widget's counts and dots, as one value. */
  datatype TagState = TagState(allTags: seq<TagInfo>, dots: seq<Dot>)

  /** The keys of the known tags found in `kw`, in `allTags` order. */
  function Matched(allTags: seq<TagInfo>, kw: set<string>): (r: seq<string>)
    ensures |r| <= |allTags|
    ensures forall k :: k in r ==> k in kw
    ensures forall j :: 0 <= j < |allTags| && allTags[j].key in kw ==> allTags[j].key in r
    ensures forall k :: k in r ==> exists j :: 0 <= j < |allTags| && allTags[j].key == k
  {
    if allTags == [] then []
    else
      var pre := allTags[..|allTags| - 1];
      var last := allTags[|allTags| - 1];
      var r := Matched(pre, kw) + if last.key in kw then [last.key] else [];
      assert forall j :: 0 <= j < |pre| ==> pre[j] == allTags[j];
      r
  }

  /** Extending the scanned prefix by one tag appends its key when it matched. */
  lemma MatchedExtend(allTags: seq<TagInfo>, i: nat, kw: set<string>)
    requires i < |allTags|
    ensures Matched(allTags[..i + 1], kw) == Matched(allTags[..i], kw) + if allTags[i].key in kw then [allTags[i].key] else []
  {
    assert allTags[..i + 1][..i] == allTags[..i];
  }

  /** One tag's count after taking away the messages in `minus` and adding those in `plus`. */
  function Recounted(t: TagInfo, minus: set<string>, plus: set<string>): TagInfo {
    t.(count := t.count - (if t.key in minus then 1 else 0) + (if t.key in plus then 1 else 0))
  }

  /** Every tag recounted, keeping the order and the keys. */
  function Recount(allTags: seq<TagInfo>, minus: set<string>, plus: set<string>): (r: seq<TagInfo>)
    ensures |r| == |allTags|
    ensures forall j :: 0 <= j < |r| ==> r[j] == Recounted(allTags[j], minus, plus)
  {
    seq(|allTags|, j requires 0 <= j < |allTags| => Recounted(allTags[j], minus, plus))
  }

  /**
   * The loop over `allTags` the widget runs on every change: a tag whose
   * key is in `minus` is counted down, and one whose key is in `plus` is
   * counted up and collected, in `allTags` order.
   */
  method RecountTags(allTags: seq<TagInfo>, minus: set<string>, plus: set<string>)
    returns (next: seq<TagInfo>, tags: seq<string>)
    ensures next == Recount(allTags, minus, plus)
    ensures tags == Matched(allTags, plus)
  {
    next := allTags;
    tags := [];
    var i := 0;
    while i < |next|
      invariant 0 <= i <= |next| == |allTags|
      invariant forall j :: 0 <= j < i ==> next[j] == Recounted(allTags[j], minus, plus)
      invariant forall j :: i <= j < |next| ==> next[j] == allTags[j]
      invariant tags == Matched(allTags[..i], plus)
    {
      var t := next[i];
      if t.key in minus {
        t := t.(count := t.count - 1);
      }
      if t.key in plus {
        tags := tags + [t.key];
        t := t.(count := t.count + 1);
      }
      next := next[i := t];
      MatchedExtend(allTags, i, plus);
      i := i + 1;
    }
    assert allTags[..i] == allTags;
  }

  /** The position of the first dot of message `key`, if any. */
  function FirstDot(dots: seq<Dot>, key: int): (r: Option<nat>)
    ensures r.Some? ==> r.value < |dots| && dots[r.value].message == key
    ensures r.Some? ==> forall j :: 0 <= j < r.value ==> dots[j].message != key
    ensures r.None? ==> forall j :: 0 <= j < |dots| ==> dots[j].message != key
  {
    if dots == [] then None
    else if dots[0].message == key then Some(0)
    else match FirstDot(dots[1..], key)
      case None => None
      case Some(i) => Some(i + 1)
  }

  /** `dots.splice(i, 1)`. */
  function RemoveAt(dots: seq<Dot>, i: nat): (r: seq<Dot>)
    requires i < |dots|
    ensures |r| == |dots| - 1
  {
    dots[..i] + dots[i + 1..]
  }

  /** `processMessage(message)`: count the message under its known tags and give it a dot if it has any. */
  function Add(st: TagState, m: Message): (r: TagState)
    ensures |r.allTags| == |st.allTags|
    ensures forall j :: 0 <= j < |r.allTags| ==> r.allTags[j].key == st.allTags[j].key
    ensures |r.dots| == |st.dots| + (if Matched(st.allTags, GetKeywords(m.keywords)) == [] then 0 else 1)
    ensures r.dots[..|st.dots|] == st.dots
  {
    var kw := GetKeywords(m.keywords);
    var tags := Matched(st.allTags, kw);
    TagState(Recount(st.allTags, {}, kw), if tags != [] then st.dots + [Dot(m.key, tags)] else st.dots)
  }

  /** `processMessage(message, true)`: count the message down under its known tags and drop its first dot. */
  function Delete(st: TagState, m: Message): (r: TagState)
    ensures |r.allTags| == |st.allTags|
    ensures forall j :: 0 <= j < |r.allTags| ==> r.allTags[j].key == st.allTags[j].key
    ensures |r.dots| == |st.dots| - (if FirstDot(st.dots, m.key).Some? then 1 else 0)
  {
    var kw := GetKeywords(m.keywords);
    TagState(
      Recount(st.allTags, kw, {}),
      match FirstDot(st.dots, m.key)
      case None => st.dots
      case Some(i) => RemoveAt(st.dots, i))
  }

  /**
   * `updateMessageTags` as written: a message without a dot is added; for
   * one with a dot, the counts move from its old tags to its new ones, the
   * dot gets the new tags, and the dot is dropped only when the keywords
   * string is empty.
   */
  function RetagAsWritten(st: TagState, m: Message): (r: TagState)
    ensures |r.allTags| == |st.allTags|
    ensures forall j :: 0 <= j < |r.allTags| ==> r.allTags[j].key == st.allTags[j].key
    ensures FirstDot(st.dots, m.key).Some? ==>
              |r.dots| == |st.dots| - (if GetKeywords(m.keywords) == {} then 1 else 0)
  {
    match FirstDot(st.dots, m.key)
    case None => Add(st, m)
    case Some(i) =>
      var kw := GetKeywords(m.keywords);
      var tags := Matched(st.allTags, kw);
      var dots := st.dots[i := Dot(st.dots[i].message, tags)];
      TagState(
        Recount(st.allTags, (set t | t in st.dots[i].tags), kw),
        if kw == {} then RemoveAt(dots, i) else dots)
  }

  /**
   * `updateMessageTags` as intended: as written, except that the dot is
   * dropped whenever no known tag is left on the message, as `Add` never
   * makes a dot without tags.
   */
  function Retag(st: TagState, m: Message): (r: TagState)
    ensures |r.allTags| == |st.allTags|
    ensures forall j :: 0 <= j < |r.allTags| ==> r.allTags[j].key == st.allTags[j].key
    ensures FirstDot(st.dots, m.key).Some? ==>
              |r.dots| == |st.dots| - (if Matched(st.allTags, GetKeywords(m.keywords)) == [] then 1 else 0)
  {
    match FirstDot(st.dots, m.key)
    case None => Add(st, m)
    case Some(i) =>
      var kw := GetKeywords(m.keywords);
      var tags := Matched(st.allTags, kw);
      var dots := st.dots[i := Dot(st.dots[i].message, tags)];
      TagState(
        Recount(st.allTags, (set t | t in st.dots[i].tags), kw),
        if tags == [] then RemoveAt(dots, i) else dots)
  }

  /** How many dots list tag `k`. */
  function Holders(dots: seq<Dot>, k: string): nat {
    if dots == [] then 0
    else Holders(dots[..|dots| - 1], k) + if k in dots[|dots| - 1].tags then 1 else 0
  }

  /** Every tag's count is the number of dots that list it. */
  predicate Tallied(st: TagState) {
    forall j :: 0 <= j < |st.allTags| ==> st.allTags[j].count == Holders(st.dots, st.allTags[j].key)
  }

  /** Every dot lists at least one tag. */
  predicate DotsTagged(dots: seq<Dot>) {
    forall i :: 0 <= i < |dots| ==> dots[i].tags != []
  }

  /** The widget's invariant: counts agree with the dots, and no dot is empty. */
  predicate Consistent(st: TagState) {
    Tallied(st) && DotsTagged(st.dots)
  }

  /** The message's dot (or its lack of one) matches the tags its keywords name. */
  predicate DotMatches(st: TagState, m: Message) {
    var tags := Matched(st.allTags, GetKeywords(m.keywords));
    match FirstDot(st.dots, m.key)
    case None => tags == []
    case Some(i) => st.dots[i].tags == tags
  }

  lemma HoldersAppend(dots: seq<Dot>, d: Dot, k: string)
    ensures Holders(dots + [d], k) == Holders(dots, k) + if k in d.tags then 1 else 0
  {
    assert (dots + [d])[..|dots|] == dots;
  }

  lemma {:induction false} HoldersRemoveAt(dots: seq<Dot>, i: nat, k: string)
    requires i < |dots|
    ensures Holders(RemoveAt(dots, i), k) == Holders(dots, k) - if k in dots[i].tags then 1 else 0
  {
    var pre := dots[..|dots| - 1];
    if i == |dots| - 1 {
      assert RemoveAt(dots, i) == pre;
    } else {
      HoldersRemoveAt(pre, i, k);
      assert RemoveAt(dots, i) == RemoveAt(pre, i) + [dots[|dots| - 1]];
      HoldersAppend(RemoveAt(pre, i), dots[|dots| - 1], k);
    }
  }

  lemma {:induction false} HoldersReplace(dots: seq<Dot>, i: nat, d: Dot, k: string)
    requires i < |dots|
    ensures Holders(dots[i := d], k) == Holders(dots, k) - (if k in dots[i].tags then 1 else 0) + (if k in d.tags then 1 else 0)
  {
    var pre := dots[..|dots| - 1];
    if i == |dots| - 1 {
      assert dots[i := d] == pre + [d];
      HoldersAppend(pre, d, k);
    } else {
      HoldersReplace(pre, i, d, k);
      assert dots[i := d] == pre[i := d] + [dots[|dots| - 1]];
      HoldersAppend(pre[i := d], dots[|dots| - 1], k);
    }
  }

  /** Adding a message keeps the counts in step with the dots and gives no empty dot. */
  lemma AddKeepsConsistent(st: TagState, m: Message)
    requires Consistent(st)
    ensures Consistent(Add(st, m))
  {
    var kw := GetKeywords(m.keywords);
    var tags := Matched(st.allTags, kw);
    var r := Add(st, m);
    forall j | 0 <= j < |r.allTags|
      ensures r.allTags[j].count == Holders(r.dots, r.allTags[j].key)
    {
      var k := st.allTags[j].key;
      if tags != [] {
        HoldersAppend(st.dots, Dot(m.key, tags), k);
      }
    }
  }

  /**
   * Deleting a message whose dot matches its keywords keeps the counts in
   * step with the dots.
   */
  lemma DeleteKeepsConsistent(st: TagState, m: Message)
    requires Consistent(st) && DotMatches(st, m)
    ensures Consistent(Delete(st, m))
  {
    var kw := GetKeywords(m.keywords);
    var tags := Matched(st.allTags, kw);
    var r := Delete(st, m);
    forall j | 0 <= j < |r.allTags|
      ensures r.allTags[j].count == Holders(r.dots, r.allTags[j].key)
    {
      var k := st.allTags[j].key;
      match FirstDot(st.dots, m.key)
      case None =>
        assert k !in kw;
      case Some(i) =>
        HoldersRemoveAt(st.dots, i, k);
    }
    match FirstDot(st.dots, m.key)
    case None =>
    case Some(i) =>
      forall a | 0 <= a < |r.dots| ensures r.dots[a].tags != [] {
        if a < i { assert r.dots[a] == st.dots[a]; } else { assert r.dots[a] == st.dots[a + 1]; }
      }
  }

  /** Retagging keeps the counts in step with the dots and leaves no empty dot. */
  lemma RetagKeepsConsistent(st: TagState, m: Message)
    requires Consistent(st)
    ensures Consistent(Retag(st, m))
  {
    match FirstDot(st.dots, m.key)
    case None =>
      AddKeepsConsistent(st, m);
    case Some(i) =>
      var kw := GetKeywords(m.keywords);
      var tags := Matched(st.allTags, kw);
      var d := Dot(st.dots[i].message, tags);
      var dots := st.dots[i := d];
      var r := Retag(st, m);
      forall j | 0 <= j < |r.allTags|
        ensures r.allTags[j].count == Holders(r.dots, r.allTags[j].key)
      {
        var k := st.allTags[j].key;
        HoldersReplace(st.dots, i, d, k);
        if tags == [] {
          HoldersRemoveAt(dots, i, k);
        }
      }
      forall a | 0 <= a < |r.dots| ensures r.dots[a].tags != [] {
        if tags == [] {
          if a < i { assert r.dots[a] == st.dots[a]; } else { assert r.dots[a] == st.dots[a + 1]; }
        } else {
          assert r.dots[a] == if a == i then d else st.dots[a];
        }
      }
  }

  /** Adding a message without a dot and deleting it again restores the counts and the dots. */
  lemma AddThenDeleteRestores(st: TagState, m: Message)
    requires FirstDot(st.dots, m.key).None?
    ensures Delete(Add(st, m), m) == st
  {
    var kw := GetKeywords(m.keywords);
    var tags := Matched(st.allTags, kw);
    var added := Add(st, m);
    if tags != [] {
      assert FirstDot(added.dots, m.key) == Some(|st.dots|) by {
        FirstDotAfter(st.dots, Dot(m.key, tags));
      }
      assert RemoveAt(added.dots, |st.dots|) == st.dots;
    }
    var r := Delete(added, m);
    assert r.allTags == st.allTags by {
      forall j | 0 <= j < |st.allTags| ensures r.allTags[j] == st.allTags[j] { }
    }
  }

  /** A dot appended after the last dot of its message is found at the end. */
  lemma {:induction false} FirstDotAfter(dots: seq<Dot>, d: Dot)
    requires FirstDot(dots, d.message).None?
    ensures FirstDot(dots + [d], d.message) == Some(|dots|)
  {
    if dots != [] {
      assert (dots + [d])[1..] == dots[1..] + [d];
      FirstDotAfter(dots[1..], d);
    }
  }

  /** Matching looks only at the keys, so recounting changes no match. */
  lemma {:induction false} MatchedKeysOnly(ts: seq<TagInfo>, us: seq<TagInfo>, kw: set<string>)
    requires |ts| == |us|
    requires forall j :: 0 <= j < |ts| ==> ts[j].key == us[j].key
    ensures Matched(ts, kw) == Matched(us, kw)
  {
    if ts != [] {
      MatchedKeysOnly(ts[..|ts| - 1], us[..|us| - 1], kw);
    }
  }

  /** The dot made by adding a message matches the message's keywords. */
  lemma AddMatches(st: TagState, m: Message)
    requires FirstDot(st.dots, m.key).None?
    ensures DotMatches(Add(st, m), m)
  {
    var kw := GetKeywords(m.keywords);
    var tags := Matched(st.allTags, kw);
    var added := Add(st, m);
    MatchedKeysOnly(st.allTags, added.allTags, kw);
    if tags != [] {
      FirstDotAfter(st.dots, Dot(m.key, tags));
    }
  }

  /** With no keywords nothing matches; with some match, there are keywords. */
  lemma MatchedEmpty(allTags: seq<TagInfo>, kw: set<string>)
    ensures kw == {} ==> Matched(allTags, kw) == []
  {
  }

  /** As written and as intended, retagging differs only when keywords remain but no known tag does. */
  lemma RetagAgreesUnlessUntagged(st: TagState, m: Message)
    requires m.keywords == "" || Matched(st.allTags, GetKeywords(m.keywords)) != []
    ensures RetagAsWritten(st, m) == Retag(st, m)
  {
    var kw := GetKeywords(m.keywords);
    MatchedEmpty(st.allTags, kw);
    if Matched(st.allTags, kw) != [] {
      assert Matched(st.allTags, kw)[0] in kw;
    }
  }

  /** The keywords string "nonjunk" names one keyword. */
  lemma NonjunkKeywords()
    ensures GetKeywords("nonjunk") == {"nonjunk"}
  {
    SplitSpaceFree("nonjunk");
  }

  /** One known tag, `$label1`, on one dot, for message 7. */
  const ExampleState := TagState([TagInfo("$label1", 1)], [Dot(7, ["$label1"])])

  /** Message 7 retagged to the single keyword "nonjunk", which no tag has. */
  const ExampleRetag := Message(7, 0, 0, false, false, false, "nonjunk", [], [], false, [])

  /** The pieces both retag functions compute on the example. */
  lemma RetagExampleSteps()
    ensures Holders(ExampleState.dots, "$label1") == 1
    ensures FirstDot(ExampleState.dots, 7) == Some(0)
    ensures Matched(ExampleState.allTags, GetKeywords(ExampleRetag.keywords)) == []
    ensures Recount(ExampleState.allTags, (set t | t in ExampleState.dots[0].tags), GetKeywords(ExampleRetag.keywords))
            == [TagInfo("$label1", 0)]
  {
    var st := ExampleState;
    assert Holders(st.dots, "$label1") == 1 by {
      assert st.dots[..0] == [];
    }
    NonjunkKeywords();
    assert "$label1"[0] != "nonjunk"[0];
    assert Matched(st.allTags, {"nonjunk"}) == [] by {
      assert st.allTags[..0] == [];
    }
  }

  /**
   * The discrepancy: a message carrying a known tag is retagged to a keyword
   * no tag has ("nonjunk"). As written, its dot stays with no tags, breaking
   * the invariant `Add` keeps; as intended, the dot goes.
   */
  lemma RetagAsWrittenLeavesEmptyDot()
    ensures Consistent(ExampleState)
    ensures RetagAsWritten(ExampleState, ExampleRetag) == TagState([TagInfo("$label1", 0)], [Dot(7, [])])
    ensures !Consistent(RetagAsWritten(ExampleState, ExampleRetag))
    ensures Retag(ExampleState, ExampleRetag) == TagState([TagInfo("$label1", 0)], [])
  {
    RetagExampleSteps();
    NonjunkKeywords();
    assert RetagAsWritten(ExampleState, ExampleRetag).dots[0].tags == [];
  }

  class TagDotsWidget {
    /** `this.allTags`: each known tag and its count. */
    var allTags: seq<TagInfo>
    /** `this.dots`: one dot per tagged message. */
    var dots: seq<Dot>
    /** Whether the chart needs re-rendering. */
    var stale: bool
    /** Between `init` and `uninit`, when `allTags` and `dots` exist. */
    var ready: bool
    /** Whether the root element carries the `hidden` class. */
    var hidden: bool

    /** The counts and dots as one value. */
    function State(): TagState
      reads this
    {
      TagState(allTags, dots)
    }

    constructor()
      ensures !ready && !stale && !hidden && State() == TagState([], [])
    {
      allTags := [];
      dots := [];
      stale := false;
      ready := false;
      hidden := false;
    }

    /** `init`: every tag the tag service knows (`tagKeys`), counted zero; no dots; hidden and stale. */
    method Init(tagKeys: seq<string>)
      modifies this
      ensures ready && stale && hidden && dots == []
      ensures |allTags| == |tagKeys| && forall j :: 0 <= j < |tagKeys| ==> allTags[j] == TagInfo(tagKeys[j], 0)
      ensures Consistent(State())
    {
      dots := [];
      allTags := seq(|tagKeys|, j requires 0 <= j < |tagKeys| => TagInfo(tagKeys[j], 0));
      stale := true;
      hidden := true;
      ready := true;
    }

    /** `uninit`: drops the tags and the dots. */
    method Uninit()
      modifies this
      ensures !ready && State() == TagState([], [])
      ensures stale == old(stale) && hidden == old(hidden)
    {
      dots := [];
      allTags := [];
      ready := false;
    }

    /** The search for the first dot of message `key`. */
    method IndexOfDot(key: int) returns (index: Option<nat>)
      ensures index == FirstDot(dots, key)
    {
      index := None;
      var i := 0;
      while index.None? && i < |dots|
        invariant 0 <= i <= |dots|
        invariant index.None? ==> forall j :: 0 <= j < i ==> dots[j].message != key
        invariant index.Some? ==> index.value < |dots| && dots[index.value].message == key
        invariant index.Some? ==> forall j :: 0 <= j < index.value ==> dots[j].message != key
      {
        if dots[i].message == key {
          index := Some(i);
        }
        i := i + 1;
      }
    }

    /**
     * `processMessage`: an added message is counted under its known tags
     * and gets a dot if it has any; a deleted one is counted down under them
     * and loses its first dot. Never asks for a reprocess.
     */
    method ProcessMessage(m: Message, deleted: bool) returns (reprocess: bool)
      requires ready
      modifies this
      ensures ready && stale && hidden == old(hidden) && !reprocess
      ensures State() == if deleted then Delete(old(State()), m) else Add(old(State()), m)
    {
      stale := true;
      var kw := GetKeywords(m.keywords);
      if !deleted {
        var tags;
        allTags, tags := RecountTags(allTags, {}, kw);
        if |tags| > 0 {
          dots := dots + [Dot(m.key, tags)];
        }
      } else {
        var unused;
        allTags, unused := RecountTags(allTags, kw, {});
        var index := IndexOfDot(m.key);
        if index.Some? {
          dots := dots[..index.value] + dots[index.value + 1..];
        }
      }
      reprocess := false;
    }

    /**
     * `updateMessageTags`, corrected: a message without a dot is added; for
     * one with a dot, the counts move from the dot's tags to the new ones,
     * the dot takes the new tags, and it is dropped when none is left (the
     * source drops it only when the keywords string is empty).
     */
    method UpdateMessageTags(m: Message) returns (reprocess: bool)
      requires ready
      modifies this
      ensures ready && stale && hidden == old(hidden) && !reprocess
      ensures State() == Retag(old(State()), m)
    {
      stale := true;
      var index := IndexOfDot(m.key);
      if index.None? {
        reprocess := ProcessMessage(m, false);
      } else {
        var i := index.value;
        var oldTags := dots[i].tags;
        var kw := GetKeywords(m.keywords);
        var tags;
        allTags, tags := RecountTags(allTags, (set t | t in oldTags), kw);
        dots := dots[i := Dot(dots[i].message, tags)];
        if |tags| == 0 {
          dots := dots[..i] + dots[i + 1..];
        }
        reprocess := false;
      }
    }

    /** `render`: hides the chart when there are no dots and shows it otherwise; no longer stale. */
    method Render()
      requires ready
      modifies this
      ensures !stale && (hidden <==> dots == [])
      ensures ready && State() == old(State())
    {
      hidden := dots == [];
      stale := false;
    }

    /** `update`: renders only a stale chart. */
    method Update()
      requires ready
      modifies this
      ensures old(stale) ==> !stale && (hidden <==> dots == [])
      ensures !old(stale) ==> stale == old(stale) && hidden == old(hidden)
      ensures ready && State() == old(State())
    {
      if stale {
        Render();
      }
    }
  }
}
