/**
 * Channel key derivation: `extract_and_sort_hashtags`, found with the same body in
 * src/handlers.py, src/handlers/base.py (a method of BaseHandler) and
 * layers/messages.py (a method of IncomingMessage reading `self.text`).
 * The key is the sorted, de-duplicated set of hashtags (whitespace tokens that start
 * with `#`, minus that `#`) joined by single spaces, or the default joined by spaces
 * when there is none. Case is kept as written.
 */
module Hashtags {

  import opened Strings

  /** The default the callers pass: `default=["world"]`. */
  const DefaultTags: seq<string> := ["world"]

  predicate IsHashtag(w: string) {
    |w| > 0 && w[0] == '#'
  }

  /** `[part[1:] for part in words if part.startswith("#")]`, in order. */
  function TagList(words: seq<string>): (tags: seq<string>)
    ensures forall t :: t in tags <==> exists w :: w in words && IsHashtag(w) && w[1..] == t
  {
    if words == [] then []
    else
      var rest := TagList(words[1..]);
      assert forall w :: w in words <==> w == words[0] || w in words[1..];
      if IsHashtag(words[0]) then [words[0][1..]] + rest else rest
  }

  lemma {:induction false} TagListAppend(a: seq<string>, b: seq<string>)
    ensures TagList(a + b) == TagList(a) + TagList(b)
  {
    if a != [] {
      assert (a + b)[1..] == a[1..] + b;
      TagListAppend(a[1..], b);
    } else {
      assert a + b == b;
    }
  }

  /** The set of hashtags of a text. */
  function HashtagSet(text: string): set<string> {
    Elems(TagList(Words(text)))
  }

  function ExtractAndSortHashtags(text: string, default: seq<string>): (key: string)
    ensures HashtagSet(text) == {} ==> key == Join(default, " ")
    ensures HashtagSet(text) != {} ==>
      && StrictlySorted(SplitOn(key, ' '))
      && Elems(SplitOn(key, ' ')) == HashtagSet(text)
  {
    var tags := SortedSet(TagList(Words(text)));
    ElemsEmpty(tags);
    if |tags| == 0 then
      Join(default, " ")
    else
      HashtagsHaveNoSpace(text);
      assert forall t :: t in tags ==> ' ' !in t by {
        forall t | t in tags ensures ' ' !in t {
          assert t in Elems(tags);
          NoSpaceHasNoBlank(t);
        }
      }
      SplitJoin(tags, ' ');
      Join(tags, " ")
  }

  /** A hashtag never contains whitespace. */
  lemma HashtagsHaveNoSpace(text: string)
    ensures forall t :: t in HashtagSet(text) ==> NoSpace(t)
  {
    forall t | t in HashtagSet(text) ensures NoSpace(t) {
      var w :| w in Words(text) && IsHashtag(w) && w[1..] == t;
      assert forall i :: 0 <= i < |t| ==> t[i] == w[i + 1];
    }
  }

  /** The key depends on the text only through its set of hashtags. */
  lemma SameHashtagsSameKey(t1: string, t2: string, default: seq<string>)
    requires HashtagSet(t1) == HashtagSet(t2)
    ensures ExtractAndSortHashtags(t1, default) == ExtractAndSortHashtags(t2, default)
  {
    var a := SortedSet(TagList(Words(t1)));
    var b := SortedSet(TagList(Words(t2)));
    SortedUnique(a, b);
  }

  lemma HashtagSetAppend(a: string, b: string)
    ensures HashtagSet(a + " " + b) == HashtagSet(a) + HashtagSet(b)
  {
    WordsAppendSpace(a, b);
    TagListAppend(Words(a), Words(b));
    var ta, tb := TagList(Words(a)), TagList(Words(b));
    assert forall t :: t in ta + tb <==> t in ta || t in tb;
  }

  /** Reordering the tokens of a text does not change its key. */
  lemma ReorderKeepsKey(a: string, b: string, default: seq<string>)
    ensures ExtractAndSortHashtags(a + " " + b, default) == ExtractAndSortHashtags(b + " " + a, default)
  {
    HashtagSetAppend(a, b);
    HashtagSetAppend(b, a);
    SameHashtagsSameKey(a + " " + b, b + " " + a, default);
  }

  /** Repeating the tokens of a text does not change its key. */
  lemma RepeatKeepsKey(a: string, default: seq<string>)
    ensures ExtractAndSortHashtags(a + " " + a, default) == ExtractAndSortHashtags(a, default)
  {
    HashtagSetAppend(a, a);
    SameHashtagsSameKey(a + " " + a, a, default);
  }

  /** Tokens not starting with `#` contribute nothing. */
  lemma PlainTokensIgnored(a: string, b: string, default: seq<string>)
    requires forall w :: w in Words(a) ==> !IsHashtag(w)
    ensures ExtractAndSortHashtags(a + " " + b, default) == ExtractAndSortHashtags(b, default)
  {
    HashtagSetAppend(a, b);
    assert HashtagSet(a) == {};
    SameHashtagsSameKey(a + " " + b, b, default);
  }

  /** A text made of the tokens `ws`: its hashtags are exactly the tokens of `ws`
      that start with `#`, with that `#` removed. */
  lemma HashtagsOfTokens(ws: seq<string>)
    requires forall w :: w in ws ==> |w| > 0 && NoSpace(w)
    ensures forall t :: t in HashtagSet(Join(ws, " ")) <==> exists w :: w in ws && IsHashtag(w) && w[1..] == t
  {
    WordsOfJoin(ws);
  }

  /** A text that is one hashtag token is the channel of that hashtag. */
  lemma SingleHashtagKey(w: string, default: seq<string>)
    requires NoSpace(w)
    ensures ExtractAndSortHashtags("#" + w, default) == w
  {
    var text := "#" + w;
    assert NoSpace(text) by {
      forall i | 0 <= i < |text| ensures !IsSpace(text[i]) {
        if i > 0 { assert text[i] == w[i - 1]; }
      }
    }
    WordsOfWord(text);
    assert text[1..] == w;
    assert TagList([text]) == [w] by {
      assert [text][1..] == [];
    }
    assert SortedSet([w]) == [w] by {
      assert [w][1..] == [];
    }
  }

  /** Nothing is folded: two different single hashtags, `#Fr` and `#fr` say, name
      two channels. */
  lemma DistinctHashtagsDistinctChannels(w1: string, w2: string, default: seq<string>)
    requires NoSpace(w1) && NoSpace(w2) && w1 != w2
    ensures ExtractAndSortHashtags("#" + w1, default) != ExtractAndSortHashtags("#" + w2, default)
  {
    SingleHashtagKey(w1, default);
    SingleHashtagKey(w2, default);
  }

  /** A bare `#` token is the empty hashtag. */
  lemma BareHashIsEmptyTag()
    ensures HashtagSet("#") == {""}
    ensures ExtractAndSortHashtags("#", DefaultTags) == ""
  {
    WordsOfWord("#");
    assert "#"[1..] == "";
  }

  /** Without hashtags the key is `world`. */
  lemma NoHashtagIsWorld(text: string)
    requires forall w :: w in Words(text) ==> !IsHashtag(w)
    ensures ExtractAndSortHashtags(text, DefaultTags) == "world"
  {
    assert HashtagSet(text) == {};
  }
}
