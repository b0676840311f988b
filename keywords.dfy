/**
 * The tag-dots widget reads a message's tags from its "keywords" string
 * property, a space-separated list of tag keys.
 */
module Keywords {

  /** `s.split(" ")`: the pieces between single spaces, empty pieces included. */
  function Split(s: string): (r: seq<string>)
    ensures |r| >= 1
    ensures forall t :: t in r ==> ' ' !in t
  {
    if s == [] then [""]
    else
      var rest := Split(s[1..]);
      if s[0] == ' ' then [""] + rest
      else [[s[0]] + rest[0]] + rest[1..]
  }

  /** `tokens.join(" ")`. */
  function Join(tokens: seq<string>): string
    requires |tokens| >= 1
  {
    if |tokens| == 1 then tokens[0] else tokens[0] + " " + Join(tokens[1..])
  }

  /**
   * `_getKeywordsForMessage`: no keywords for the empty string, otherwise
   * every piece of the split string (a JavaScript object used as a set).
   */
  function GetKeywords(keywords: string): (r: set<string>)
    ensures r == {} <==> keywords == ""
    ensures forall t :: t in r ==> ' ' !in t
  {
    if keywords == "" then {}
    else
      var pieces := Split(keywords);
      var r := set t | t in pieces;
      assert pieces[0] in r;
      r
  }

  /** Splitting on spaces loses nothing: joining the pieces gives the string back. */
  lemma {:induction false} JoinSplit(s: string)
    ensures Join(Split(s)) == s
  {
    if s != [] {
      var rest := Split(s[1..]);
      JoinSplit(s[1..]);
      if s[0] == ' ' {
        assert Split(s) == [""] + rest;
        assert Join(Split(s)) == "" + " " + Join(rest);
        assert s == [s[0]] + s[1..];
      } else {
        if |rest| == 1 {
          assert Join(Split(s)) == [s[0]] + rest[0];
        } else {
          assert Split(s)[1..] == rest[1..];
          assert Join(Split(s)) == ([s[0]] + rest[0]) + " " + Join(rest[1..]);
          assert Join(rest) == rest[0] + " " + Join(rest[1..]);
        }
        assert s == [s[0]] + s[1..];
      }
    }
  }

  /** Joining space-free pieces and splitting again gives the pieces back. */
  lemma {:induction false} SplitJoin(tokens: seq<string>)
    requires |tokens| >= 1
    requires forall t :: t in tokens ==> ' ' !in t
    ensures Split(Join(tokens)) == tokens
  {
    if |tokens| == 1 {
      SplitSpaceFree(tokens[0]);
    } else {
      SplitJoin(tokens[1..]);
      SplitPrefix(tokens[0], Join(tokens[1..]));
      assert tokens == [tokens[0]] + tokens[1..];
    }
  }

  /** A space-free string is one piece. */
  lemma {:induction false} SplitSpaceFree(w: string)
    requires ' ' !in w
    ensures Split(w) == [w]
  {
    if w != [] {
      SplitSpaceFree(w[1..]);
      assert w == [w[0]] + w[1..];
    }
  }

  /** A space-free word followed by a space and a rest splits into the word and the rest's pieces. */
  lemma {:induction false} SplitPrefix(w: string, rest: string)
    requires ' ' !in w
    ensures Split(w + " " + rest) == [w] + Split(rest)
  {
    if w == [] {
      assert w + " " + rest == [' '] + rest;
      assert (w + " " + rest)[1..] == rest;
    } else {
      SplitPrefix(w[1..], rest);
      assert (w + " " + rest)[1..] == w[1..] + " " + rest;
      assert w == [w[0]] + w[1..];
    }
  }

  /** The keywords of a joined list of tag keys are exactly those keys. */
  lemma KeywordsOfJoin(keys: seq<string>)
    requires |keys| >= 1
    requires forall t :: t in keys ==> ' ' !in t
    requires Join(keys) != ""
    ensures GetKeywords(Join(keys)) == set t | t in keys
  {
    SplitJoin(keys);
  }
}
