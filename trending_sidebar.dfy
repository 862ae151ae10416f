/** The trending-hashtag ranking of src/components/TrendingSidebar.tsx: every
    `#\w+` token of every post, lower-cased, counted, sorted by count from
    most to least frequent, and cut to the first five. */
module Trending {
  import opened Common

  // ---------------------------------------------------------------------
  // Extracting hashtags: the global regular expression /#(\w+)/g

  /** `\w`: ASCII letters, digits and the underscore. */
  predicate IsWordChar(c: char)
  {
    ('A' <= c <= 'Z') || ('a' <= c <= 'z') || ('0' <= c <= '9') || c == '_'
  }

  /** A tag as the expression matches it: `#` and one or more word characters. */
  predicate IsHashtag(t: string)
  {
    |t| >= 2 && t[0] == '#' && forall i :: 1 <= i < |t| ==> IsWordChar(t[i])
  }

  /** A tag after lower-casing: a hashtag with no upper-case letter. */
  predicate IsTagKey(t: string)
  {
    IsHashtag(t) && forall i :: 0 <= i < |t| ==> !IsAsciiUpper(t[i])
  }

  /** The length of the longest run of word characters that starts `s`. */
  function WordRun(s: string): (n: nat)
    ensures n <= |s|
    ensures forall i :: 0 <= i < n ==> IsWordChar(s[i])
    ensures n < |s| ==> !IsWordChar(s[n])
  {
    if s != [] && IsWordChar(s[0]) then 1 + WordRun(s[1..]) else 0
  }

  /** `s.match(/#(\w+)/g) || []`: the matches, left to right. A `#` followed by
      a word character starts a match that takes the whole run of word
      characters; the scan resumes right after it. Any other character is
      skipped. */
  function Hashtags(s: string): (tags: seq<string>)
    ensures forall t :: t in tags ==> IsHashtag(t)
    decreases |s|
  {
    if |s| < 2 then []
    else if s[0] == '#' && IsWordChar(s[1]) then
      var n := WordRun(s[1..]);
      [s[..n + 1]] + Hashtags(s[n + 1..])
    else Hashtags(s[1..])
  }

  /** A match of the expression starts at `i`: a `#` followed by a word
      character. */
  predicate StartsTag(s: string, i: nat)
  {
    i + 1 < |s| && s[i] == '#' && IsWordChar(s[i + 1])
  }

  /** The match that starts at `i`: the `#` and the whole run of word
      characters after it, which ends at the end of the text or before a
      character that is not a word character. */
  function TagAt(s: string, i: nat): (t: string)
    requires StartsTag(s, i)
    ensures IsHashtag(t)
    ensures |t| >= 2 && i + |t| <= |s| && t == s[i..i + |t|]
    ensures i + |t| < |s| ==> !IsWordChar(s[i + |t|])
  {
    var n := WordRun(s[i + 1..]);
    s[i..i + 1 + n]
  }

  /** The reference reading of the expression: one match for every position
      from `i` on where a match starts, in the order of the positions. */
  function TagsFrom(s: string, i: nat): seq<string>
    requires i <= |s|
    decreases |s| - i
  {
    if i == |s| then []
    else (if StartsTag(s, i) then [TagAt(s, i)] else []) + TagsFrom(s, i + 1)
  }

  /** No match starts on a word character, so the positions inside a match
      contribute nothing. */
  lemma {:induction false} SkipWordChars(s: string, j: nat, k: nat)
    requires j <= k <= |s|
    requires forall m :: j <= m < k ==> IsWordChar(s[m])
    ensures TagsFrom(s, j) == TagsFrom(s, k)
    decreases k - j
  {
    if j < k {
      assert !StartsTag(s, j);
      SkipWordChars(s, j + 1, k);
    }
  }

  /** One step of the scanner on the suffix from `i`, in positions of `s`. */
  lemma HashtagsStep(s: string, i: nat)
    requires i <= |s|
    ensures |s| - i < 2 ==> Hashtags(s[i..]) == []
    ensures StartsTag(s, i) ==> Hashtags(s[i..]) == [TagAt(s, i)] + Hashtags(s[i + |TagAt(s, i)|..])
    ensures |s| - i >= 2 && !StartsTag(s, i) ==> Hashtags(s[i..]) == Hashtags(s[i + 1..])
  {
    var r := s[i..];
    if |r| >= 2 {
      assert r[1..] == s[i + 1..];
      if StartsTag(s, i) {
        var n := WordRun(s[i + 1..]);
        assert r[..n + 1] == TagAt(s, i);
        assert r[n + 1..] == s[i + 1 + n..];
      }
    }
  }

  lemma {:induction false} HashtagsFrom(s: string, i: nat)
    requires i <= |s|
    ensures Hashtags(s[i..]) == TagsFrom(s, i)
    decreases |s| - i
  {
    HashtagsStep(s, i);
    if |s| - i < 2 {
      if i < |s| {
        assert TagsFrom(s, i + 1) == [];
      }
    } else if StartsTag(s, i) {
      var k := i + |TagAt(s, i)|;
      HashtagsFrom(s, k);
      SkipWordChars(s, i + 1, k);
    } else {
      HashtagsFrom(s, i + 1);
    }
  }

  /** The matches of the expression are, left to right, one for each
      position of the text where a `#` is followed by a word character, each
      taking the whole run of word characters after it. */
  lemma HashtagsAreTagsAtStarts(s: string)
    ensures Hashtags(s) == TagsFrom(s, 0)
  {
    HashtagsFrom(s, 0);
    assert s[0..] == s;
  }

  /** Text without a `#` holds no hashtag. */
  lemma {:induction false} NoHashNoTags(s: string)
    requires '#' !in s
    ensures Hashtags(s) == []
    decreases |s|
  {
    if |s| >= 2 {
      assert s[0] != '#' by { assert s[0] in s; }
      assert forall c :: c in s[1..] ==> c in s;
      NoHashNoTags(s[1..]);
    }
  }

  /** Lower-casing a hashtag gives a tag key. */
  lemma LowerHashtag(t: string)
    requires IsHashtag(t)
    ensures IsTagKey(Lower(t))
  {
  }

  function LowerAll(tags: seq<string>): (r: seq<string>)
    ensures |r| == |tags|
    ensures forall i :: 0 <= i < |tags| ==> r[i] == Lower(tags[i])
  {
    seq(|tags|, i requires 0 <= i < |tags| => Lower(tags[i]))
  }

  /** `data.map(post => post.content.match(re) || []).flat().map(t => t.toLowerCase())`:
      the lower-cased tags of all posts, post after post. */
  function AllTags(contents: seq<string>): (tags: seq<string>)
    ensures forall t :: t in tags ==> IsTagKey(t)
  {
    if contents == [] then []
    else
      var first := LowerAll(Hashtags(contents[0]));
      assert forall t :: t in first ==> IsTagKey(t) by {
        forall i | 0 <= i < |first| ensures IsTagKey(first[i]) {
          assert Hashtags(contents[0])[i] in Hashtags(contents[0]);
          LowerHashtag(Hashtags(contents[0])[i]);
        }
      }
      first + AllTags(contents[1..])
  }

  /** The tags of two batches of posts are the tags of each, in order. */
  lemma {:induction false} AllTagsAppend(a: seq<string>, b: seq<string>)
    ensures AllTags(a + b) == AllTags(a) + AllTags(b)
  {
    if a == [] {
      assert a + b == b;
    } else {
      assert (a + b)[0] == a[0];
      assert (a + b)[1..] == a[1..] + b;
      AllTagsAppend(a[1..], b);
    }
  }

  // ---------------------------------------------------------------------
  // Counting: the `reduce` into a record, read back with Object.entries

  predicate NoDup(s: seq<string>)
  {
    forall i, j :: 0 <= i < j < |s| ==> s[i] != s[j]
  }

  /** The distinct tags, in order of first occurrence: the order in which the
      `reduce` creates the record's keys, and so the order of Object.entries
      (no key starts with a digit, so none is an array index). */
  function Distinct(s: seq<string>): (d: seq<string>)
    ensures forall t :: t in d <==> t in s
    ensures NoDup(d)
  {
    if s == [] then []
    else
      var d := Distinct(s[..|s| - 1]);
      assert forall t :: t in s <==> t in s[..|s| - 1] || t == s[|s| - 1] by {
        assert s == s[..|s| - 1] + [s[|s| - 1]];
      }
      if s[|s| - 1] in d then d else d + [s[|s| - 1]]
  }

  /** How often tag `t` occurs in the flat list of tags; at least once
      exactly when it is in the list. */
  function Occurrences(tags: seq<string>, t: string): (n: nat)
    ensures n > 0 <==> t in tags
  {
    if tags == [] then 0
    else
      assert forall u :: u in tags <==> u in tags[..|tags| - 1] || u == tags[|tags| - 1] by {
        assert tags == tags[..|tags| - 1] + [tags[|tags| - 1]];
      }
      Occurrences(tags[..|tags| - 1], t) + (if tags[|tags| - 1] == t then 1 else 0)
  }

  /** One `{ tag, count }` entry of the ranking. */
  datatype TagCount = TagCount(tag: string, count: nat)

  /** Object.entries of the tally, as `{ tag, count }` objects. */
  function Entries(tags: seq<string>): (es: seq<TagCount>)
    ensures |es| == |Distinct(tags)|
  {
    var d := Distinct(tags);
    seq(|d|, i requires 0 <= i < |d| => TagCount(d[i], Occurrences(tags, d[i])))
  }

  /** The record the `reduce` builds from a list of tags: each tag of the
      list mapped to one more than it was mapped to before. */
  function Tally(tags: seq<string>): map<string, nat>
  {
    if tags == [] then map[]
    else
      var acc := Tally(tags[..|tags| - 1]);
      var tag := tags[|tags| - 1];
      acc[tag := (if tag in acc then acc[tag] else 0) + 1]
  }

  /** The record holds exactly the tags of the list, each with its number of
      occurrences. */
  lemma {:induction false} TallyCounts(tags: seq<string>)
    ensures forall t :: t in Tally(tags) <==> t in tags
    ensures forall t :: t in Tally(tags) ==> Tally(tags)[t] == Occurrences(tags, t)
  {
    if tags != [] {
      var init := tags[..|tags| - 1];
      TallyCounts(init);
      assert tags == init + [tags[|tags| - 1]];
    }
  }

  /** One more tag: how the key order and the record of a prefix grow. */
  lemma CountStep(tags: seq<string>, i: nat)
    requires i < |tags|
    ensures Distinct(tags[..i + 1]) ==
              if tags[i] in Distinct(tags[..i]) then Distinct(tags[..i]) else Distinct(tags[..i]) + [tags[i]]
    ensures Tally(tags[..i + 1]) ==
              Tally(tags[..i])[tags[i] := (if tags[i] in Tally(tags[..i]) then Tally(tags[..i])[tags[i]] else 0) + 1]
  {
    assert tags[..i + 1][..i] == tags[..i];
  }

  /** The `reduce` at its place in the source: `acc[tag] = (acc[tag] || 0) + 1`
      for each tag in turn, on a record that keeps its keys in creation order.
      Returns the keys in that order and the record. */
  method CountTags(tags: seq<string>) returns (order: seq<string>, acc: map<string, nat>)
    ensures order == Distinct(tags)
    ensures forall t :: t in acc <==> t in tags
    ensures forall t :: t in acc ==> acc[t] == Occurrences(tags, t) && acc[t] >= 1
  {
    order, acc := [], map[];
    var i := 0;
    while i < |tags|
      invariant 0 <= i <= |tags|
      invariant order == Distinct(tags[..i])
      invariant acc == Tally(tags[..i])
      invariant forall t :: t in acc <==> t in order
    {
      var tag := tags[i];
      CountStep(tags, i);
      var previous := if tag in acc then acc[tag] else 0;
      if tag !in acc {
        order := order + [tag];
      }
      acc := acc[tag := previous + 1];
      i := i + 1;
    }
    assert tags[..i] == tags;
    TallyCounts(tags);
  }

  // ---------------------------------------------------------------------
  // Sorting: `.sort((a, b) => b.count - a.count)`, a stable sort

  predicate SortedByCount(es: seq<TagCount>)
  {
    forall i, j :: 0 <= i < j < |es| ==> es[i].count >= es[j].count
  }

  /** No tag appears in two entries. */
  predicate TagsDistinct(es: seq<TagCount>)
  {
    forall i, j :: 0 <= i < j < |es| ==> es[i].tag != es[j].tag
  }

  /** Inserts `x` before the first entry whose count is not larger: the step of
      a stable insertion sort that puts larger counts first. */
  function Insert(x: TagCount, s: seq<TagCount>): seq<TagCount>
  {
    if s == [] || s[0].count <= x.count then [x] + s
    else [s[0]] + Insert(x, s[1..])
  }

  /** Stable sort from the largest count to the smallest. */
  function SortByCount(es: seq<TagCount>): seq<TagCount>
  {
    if es == [] then [] else Insert(es[0], SortByCount(es[1..]))
  }

  lemma {:induction false} InsertPermutes(x: TagCount, s: seq<TagCount>)
    ensures multiset(Insert(x, s)) == multiset(s) + multiset{x}
  {
    if s != [] && s[0].count > x.count {
      InsertPermutes(x, s[1..]);
      assert s == [s[0]] + s[1..];
    }
  }

  /** An insertion step holds exactly the new entry and the old ones. */
  lemma {:induction false} InsertMembers(x: TagCount, s: seq<TagCount>)
    ensures forall e :: e in Insert(x, s) <==> e == x || e in s
  {
    if s != [] && s[0].count > x.count {
      InsertMembers(x, s[1..]);
      assert s == [s[0]] + s[1..];
    }
  }

  lemma {:induction false} InsertSorted(x: TagCount, s: seq<TagCount>)
    requires SortedByCount(s)
    ensures SortedByCount(Insert(x, s))
  {
    if s != [] && s[0].count > x.count {
      var rest := Insert(x, s[1..]);
      InsertSorted(x, s[1..]);
      InsertMembers(x, s[1..]);
      forall j | 0 <= j < |rest| ensures rest[j].count <= s[0].count {
        assert rest[j] in rest;
        if rest[j] != x {
          var k :| 0 <= k < |s[1..]| && s[1..][k] == rest[j];
          assert s[k + 1] == rest[j];
        }
      }
      assert Insert(x, s) == [s[0]] + rest;
    }
  }

  lemma {:induction false} InsertTagsDistinct(x: TagCount, s: seq<TagCount>)
    requires TagsDistinct(s)
    requires forall e :: e in s ==> e.tag != x.tag
    ensures TagsDistinct(Insert(x, s))
  {
    if s != [] && s[0].count > x.count {
      var rest := Insert(x, s[1..]);
      assert forall e :: e in s[1..] ==> e in s;
      InsertTagsDistinct(x, s[1..]);
      InsertMembers(x, s[1..]);
      forall j | 0 <= j < |rest| ensures rest[j].tag != s[0].tag {
        assert rest[j] in rest;
        if rest[j] != x {
          var k :| 0 <= k < |s[1..]| && s[1..][k] == rest[j];
          assert s[k + 1] == rest[j];
        } else {
          assert s[0] in s;
        }
      }
      assert Insert(x, s) == [s[0]] + rest;
    } else {
      forall j | 0 < j < |[x] + s| ensures ([x] + s)[j].tag != x.tag {
        assert ([x] + s)[j] == s[j - 1];
        assert s[j - 1] in s;
      }
    }
  }

  /** The sort only reorders its input. */
  lemma {:induction false} SortPermutes(es: seq<TagCount>)
    ensures multiset(SortByCount(es)) == multiset(es)
  {
    if es != [] {
      SortPermutes(es[1..]);
      InsertPermutes(es[0], SortByCount(es[1..]));
      assert es == [es[0]] + es[1..];
    }
  }

  lemma {:induction false} SortSorted(es: seq<TagCount>)
    ensures SortedByCount(SortByCount(es))
  {
    if es != [] {
      SortSorted(es[1..]);
      InsertSorted(es[0], SortByCount(es[1..]));
    }
  }

  lemma {:induction false} SortTagsDistinct(es: seq<TagCount>)
    requires TagsDistinct(es)
    ensures TagsDistinct(SortByCount(es))
  {
    if es != [] {
      var rest := SortByCount(es[1..]);
      SortTagsDistinct(es[1..]);
      SortPermutes(es[1..]);
      forall e | e in rest ensures e.tag != es[0].tag {
        assert e in multiset(rest);
        assert e in multiset(es[1..]);
        var k :| 0 <= k < |es[1..]| && es[1..][k] == e;
        assert es[k + 1] == e;
      }
      InsertTagsDistinct(es[0], rest);
    }
  }

  // ---------------------------------------------------------------------
  // The ranking

  /** The tags of the ranking's entries. */
  function TagsOf(es: seq<TagCount>): (ts: seq<string>)
    ensures |ts| == |es|
    ensures forall i :: 0 <= i < |es| ==> ts[i] == es[i].tag
  {
    seq(|es|, i requires 0 <= i < |es| => es[i].tag)
  }

  /** The trending list for the contents of all posts. */
  function TopTags(contents: seq<string>): seq<TagCount>
  {
    Prefix(SortByCount(Entries(AllTags(contents))), 5)
  }

  lemma EntriesFacts(tags: seq<string>)
    ensures TagsDistinct(Entries(tags))
    ensures forall e :: e in Entries(tags) ==> e.tag in tags && e.count == Occurrences(tags, e.tag)
    ensures forall t :: t in tags ==> TagCount(t, Occurrences(tags, t)) in Entries(tags)
  {
    var d := Distinct(tags);
    var es := Entries(tags);
    forall t | t in tags ensures TagCount(t, Occurrences(tags, t)) in es {
      var i :| 0 <= i < |d| && d[i] == t;
      assert es[i] == TagCount(t, Occurrences(tags, t));
    }
  }

  /** Each entry of the sorted tally is a tag of the list with its number of
      occurrences. */
  lemma SortedEntriesFacts(tags: seq<string>)
    ensures |SortByCount(Entries(tags))| == |Distinct(tags)|
    ensures SortedByCount(SortByCount(Entries(tags)))
    ensures TagsDistinct(SortByCount(Entries(tags)))
    ensures forall e :: e in SortByCount(Entries(tags)) ==> e.tag in tags && e.count == Occurrences(tags, e.tag)
    ensures forall t :: t in tags ==> TagCount(t, Occurrences(tags, t)) in SortByCount(Entries(tags))
  {
    var es := Entries(tags);
    var sorted := SortByCount(es);
    EntriesFacts(tags);
    SortPermutes(es);
    SortSorted(es);
    SortTagsDistinct(es);
    assert |sorted| == |multiset(sorted)| == |multiset(es)| == |es|;
    forall e | e in sorted ensures e in es {
      assert e in multiset(sorted);
    }
    forall e | e in es ensures e in sorted {
      assert e in multiset(es);
    }
  }

  /** The tags shown are the tags of the first entries. */
  lemma PrefixTags(es: seq<TagCount>, n: nat)
    ensures forall i :: 0 <= i < |Prefix(es, n)| ==> es[i].tag in TagsOf(Prefix(es, n))
  {
    var r := Prefix(es, n);
    forall i | 0 <= i < |r| ensures es[i].tag in TagsOf(r) {
      assert TagsOf(r)[i] == es[i].tag;
    }
  }

  /** Cutting a sorted list keeps the largest counts: every entry cut off
      counts no more than any entry kept. */
  lemma CutKeepsLargest(sorted: seq<TagCount>, n: nat, p: nat, k: nat)
    requires SortedByCount(sorted)
    requires |Prefix(sorted, n)| <= p < |sorted| && k < |Prefix(sorted, n)|
    ensures sorted[p].count <= Prefix(sorted, n)[k].count
  {
  }

  /** Every entry shown is a lower-cased hashtag with its total number of
      occurrences over all posts, which is at least one. */
  lemma TopTagsCounts(contents: seq<string>)
    ensures forall e :: e in TopTags(contents) ==>
              IsTagKey(e.tag) && e.count == Occurrences(AllTags(contents), e.tag) && e.count >= 1
  {
    var tags := AllTags(contents);
    var sorted := SortByCount(Entries(tags));
    SortedEntriesFacts(tags);
    forall e | e in Prefix(sorted, 5)
      ensures IsTagKey(e.tag) && e.count == Occurrences(tags, e.tag) && e.count >= 1
    {
      assert e in sorted;
    }
  }

  /** No tag left out occurs more often than any tag shown. */
  lemma TopTagsCutOff(contents: seq<string>)
    ensures forall t, k :: t in AllTags(contents) && t !in TagsOf(TopTags(contents)) && 0 <= k < |TopTags(contents)| ==>
              Occurrences(AllTags(contents), t) <= TopTags(contents)[k].count
  {
    var tags := AllTags(contents);
    var sorted := SortByCount(Entries(tags));
    var r := Prefix(sorted, 5);
    SortedEntriesFacts(tags);
    PrefixTags(sorted, 5);
    forall t, k | t in tags && t !in TagsOf(r) && 0 <= k < |r|
      ensures Occurrences(tags, t) <= r[k].count
    {
      var p :| 0 <= p < |sorted| && sorted[p] == TagCount(t, Occurrences(tags, t));
      CutKeepsLargest(sorted, 5, p, k);
    }
  }

  /** What the sidebar shows (its length is `TopTagsLength`): most frequent
      first, no tag twice, each a lower-cased hashtag with its total number
      of occurrences over all posts (at least one), and no tag left out
      occurs more often than any tag shown. */
  lemma TopTagsSpec(contents: seq<string>)
    ensures SortedByCount(TopTags(contents))
    ensures TagsDistinct(TopTags(contents))
    ensures forall e :: e in TopTags(contents) ==>
              IsTagKey(e.tag) && e.count == Occurrences(AllTags(contents), e.tag) && e.count >= 1
    ensures forall t, k :: t in AllTags(contents) && t !in TagsOf(TopTags(contents)) && 0 <= k < |TopTags(contents)| ==>
              Occurrences(AllTags(contents), t) <= TopTags(contents)[k].count
  {
    SortedEntriesFacts(AllTags(contents));
    TopTagsCounts(contents);
    TopTagsCutOff(contents);
  }

  /** The sidebar shows five tags, or every distinct tag when there are
      fewer than five. */
  lemma TopTagsLength(contents: seq<string>)
    ensures |TopTags(contents)| == Min(5, |Distinct(AllTags(contents))|)
  {
    SortedEntriesFacts(AllTags(contents));
  }

  /** A post without hashtags does not change the ranking. */
  lemma PostWithoutTagsChangesNothing(contents: seq<string>, c: string)
    requires Hashtags(c) == []
    ensures TopTags(contents + [c]) == TopTags(contents)
  {
    AllTagsAppend(contents, [c]);
    assert [c][1..] == [];
    assert AllTags([c]) == [];
    assert AllTags(contents) + [] == AllTags(contents);
  }

  // ---------------------------------------------------------------------
  // The sidebar

  /** The read the sidebar issues: one column of every row of one table. */
  datatype ContentRead = ContentRead(table: string, column: string)

  class TrendingSidebar {
    var trendingTags: seq<TagCount>
    var loading: bool

    constructor ()
      ensures trendingTags == [] && loading
    {
      trendingTags := [];
      loading := true;
    }

    /** `fetchTrendingTags`: issues the read of every post's content and,
        given the contents the store returned, shows their ranking; on
        failure the list is kept. Loading ends either way. */
    method FetchTrendingTags(outcome: Remote<seq<string>>) returns (read: ContentRead)
      modifies this
      ensures read == ContentRead("posts", "content")
      ensures !loading
      ensures trendingTags == if outcome.Success? then TopTags(outcome.data) else old(trendingTags)
    {
      read := ContentRead("posts", "content");
      if outcome.Success? {
        var hashtags := AllTags(outcome.data);
        var order, tagCounts := CountTags(hashtags);
        var entries := seq(|order|, i requires 0 <= i < |order| && order[i] in tagCounts =>
                             TagCount(order[i], tagCounts[order[i]]));
        assert entries == Entries(hashtags);
        trendingTags := Prefix(SortByCount(entries), 5);
      }
      loading := false;
    }
  }
}
