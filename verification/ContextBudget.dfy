/** The eviction steps that bring a turn's prompt back within the context window. */
module ContextBudget {
  import opened Prompt

  datatype Budget = Budget(
    maxTokens: nat, outputReserve: nat, keepRecentImages: nat, truncateHeadChars: nat, truncateTailChars: nat,
    keepRecentUncompacted: nat)
  {
    function AvailableTokens(): nat {
      if maxTokens > outputReserve then maxTokens - outputReserve else 0
    }
  }

  // ----- Images.

  // How many messages at or after `from` carry images.
  function ImageBearing(messages: seq<Message>, from: nat): nat
    requires from <= |messages|
    decreases |messages| - from
  {
    if from == |messages| then 0
    else (if messages[from].images != [] then 1 else 0) + ImageBearing(messages, from + 1)
  }

  // An evictable message with images, behind at least `keep` later ones.
  predicate IsStale(messages: seq<Message>, prefix: nat, keep: nat, i: nat)
    requires i < |messages|
  {
    i >= prefix && messages[i].images != [] && ImageBearing(messages, i + 1) >= keep
  }

  function Evicted(messages: seq<Message>, prefix: nat, keep: nat): (s: seq<Message>)
    ensures |s| == |messages|
    ensures forall i | 0 <= i < |s| ::
              s[i] == if IsStale(messages, prefix, keep, i) then messages[i].(images := []) else messages[i]
  {
    seq(|messages|, i requires 0 <= i < |messages| =>
      if IsStale(messages, prefix, keep, i) then messages[i].(images := []) else messages[i])
  }

  // ----- Long tool results.

  // 21 characters.
  const MARKER: string := "\n... [truncated] ...\n"

  predicate IsLong(m: Message, head: nat, tail: nat) {
    m.role == "tool" && |m.content| > head + tail
  }

  function Excerpt(content: string, head: nat, tail: nat): string
    requires |content| > head + tail
  {
    content[..head] + MARKER + content[|content| - tail..]
  }

  function Shortened(m: Message, head: nat, tail: nat): Message {
    if IsLong(m, head, tail) then m.(content := Excerpt(m.content, head, tail)) else m
  }

  function Truncated(messages: seq<Message>, prefix: nat, head: nat, tail: nat): (s: seq<Message>)
    ensures |s| == |messages|
    ensures forall i | 0 <= i < |s| :: s[i] == if i >= prefix then Shortened(messages[i], head, tail) else messages[i]
  {
    seq(|messages|, i requires 0 <= i < |messages| =>
      if i >= prefix then Shortened(messages[i], head, tail) else messages[i])
  }

  function LongCount(messages: seq<Message>, prefix: nat, head: nat, tail: nat): nat {
    if messages == [] then 0
    else
      var last := |messages| - 1;
      LongCount(messages[..last], prefix, head, tail) +
      if last >= prefix && IsLong(messages[last], head, tail) then 1 else 0
  }

  // ----- Dropping.

  // The first `n` evictable messages gone.
  function Without(messages: seq<Message>, prefix: nat, n: nat): seq<Message>
    requires prefix + n <= |messages|
  {
    messages[..prefix] + messages[prefix + n..]
  }

  predicate FitsWithout(messages: seq<Message>, prefix: nat, n: nat, available: nat, cost: Cost) {
    prefix + n <= |messages| && Estimate(Without(messages, prefix, n), cost) <= available
  }

  // ----- The steps, in place.

  /** Strips images from all but the `keep` most recent evictable messages that have any. */
  method EvictImages(list: MessageList, prefix: nat, keep: nat) returns (dropped: nat)
    modifies list
    ensures list.messages == Evicted(old(list.messages), prefix, keep)
    ensures dropped == TotalImages(old(list.messages)) - TotalImages(list.messages)
  {
    ghost var was := list.messages;
    var indices := ImageIndices(list.messages, prefix);
    if |indices| <= keep {
      NothingStale(was, prefix, keep, indices);
      assert list.messages == Evicted(was, prefix, keep);
      return 0;
    }
    var dropCount := |indices| - keep;
    dropped := 0;
    for k := 0 to dropCount
      invariant |list.messages| == |was|
      invariant forall i | 0 <= i < |was| ::
                  list.messages[i] == if i in indices[..k] then was[i].(images := []) else was[i]
      invariant dropped + TotalImages(list.messages) == TotalImages(was)
    {
      var i := indices[k];
      assert indices[..k + 1] == indices[..k] + [i];
      assert i !in indices[..k] by { EarlierDiffer(indices, k); }
      ImagesCleared(list.messages, i);
      dropped := dropped + |list.messages[i].images|;
      list.messages := list.messages[i := list.messages[i].(images := [])];
    }
    forall i | 0 <= i < |was| ensures list.messages[i] == Evicted(was, prefix, keep)[i] {
      StaleIffEarly(was, prefix, keep, indices, i);
    }
    assert list.messages == Evicted(was, prefix, keep);
  }

  // Exactly the evictable image-bearing messages before `end`, in order.
  ghost predicate IndexesImages(messages: seq<Message>, prefix: nat, end: nat, indices: seq<nat>) {
    && end <= |messages|
    && (forall k | 0 <= k < |indices| :: prefix <= indices[k] < end && messages[indices[k]].images != [])
    && (forall j, k | 0 <= j < k < |indices| :: indices[j] < indices[k])
    && (forall i | prefix <= i < end && messages[i].images != [] :: i in indices)
  }

  method ImageIndices(messages: seq<Message>, prefix: nat) returns (indices: seq<nat>)
    ensures IndexesImages(messages, prefix, |messages|, indices)
  {
    indices := [];
    var i := 0;
    while i < |messages|
      invariant i <= |messages| && IndexesImages(messages, prefix, i, indices)
    {
      if i >= prefix && messages[i].images != [] {
        indices := indices + [i];
      }
      i := i + 1;
    }
  }

  lemma {:induction false} EarlierDiffer(indices: seq<nat>, k: nat)
    requires k < |indices| && forall i, j | 0 <= i < j < |indices| :: indices[i] < indices[j]
    ensures indices[k] !in indices[..k]
  {
  }

  // Counting the image-bearing messages behind the `k`th.
  lemma {:induction false} BearingBehind(messages: seq<Message>, prefix: nat, indices: seq<nat>, k: nat, from: nat)
    requires IndexesImages(messages, prefix, |messages|, indices) && k <= |indices|
    requires prefix <= from <= |messages|
    requires k > 0 ==> indices[k - 1] < from
    requires k < |indices| ==> from <= indices[k]
    ensures ImageBearing(messages, from) == |indices| - k
    decreases |messages| - from
  {
    if from < |messages| {
      if messages[from].images != [] {
        var j :| 0 <= j < |indices| && indices[j] == from;
        assert j == k;
        BearingBehind(messages, prefix, indices, k + 1, from + 1);
      } else {
        BearingBehind(messages, prefix, indices, k, from + 1);
      }
    }
  }

  lemma {:induction false} StaleIffEarly(messages: seq<Message>, prefix: nat, keep: nat, indices: seq<nat>, i: nat)
    requires IndexesImages(messages, prefix, |messages|, indices) && i < |messages| && keep < |indices|
    ensures IsStale(messages, prefix, keep, i) <==> i in indices[..|indices| - keep]
  {
    if i >= prefix && messages[i].images != [] {
      var k :| 0 <= k < |indices| && indices[k] == i;
      BearingBehind(messages, prefix, indices, k + 1, i + 1);
      if k < |indices| - keep {
        assert indices[..|indices| - keep][k] == i;
      }
    }
  }

  lemma {:induction false} NothingStale(messages: seq<Message>, prefix: nat, keep: nat, indices: seq<nat>)
    requires IndexesImages(messages, prefix, |messages|, indices) && |indices| <= keep
    ensures forall i | 0 <= i < |messages| :: !IsStale(messages, prefix, keep, i)
  {
    forall i | 0 <= i < |messages| && i >= prefix && messages[i].images != []
      ensures ImageBearing(messages, i + 1) < keep
    {
      var k :| 0 <= k < |indices| && indices[k] == i;
      BearingBehind(messages, prefix, indices, k + 1, i + 1);
    }
  }

  lemma {:induction false} ImagesCleared(messages: seq<Message>, i: nat)
    requires i < |messages|
    ensures TotalImages(messages[i := messages[i].(images := [])]) + |messages[i].images| == TotalImages(messages)
  {
    var last := |messages| - 1;
    var after := messages[i := messages[i].(images := [])];
    if i == last {
      assert after[..last] == messages[..last];
    } else {
      ImagesCleared(messages[..last], i);
      assert after[..last] == messages[..last][i := messages[i].(images := [])];
    }
  }

  /** Cuts evictable tool results longer than `head + tail` to an excerpt. */
  method TruncateLongToolResults(list: MessageList, prefix: nat, head: nat, tail: nat) returns (truncated: nat)
    modifies list
    ensures list.messages == Truncated(old(list.messages), prefix, head, tail)
    ensures truncated == LongCount(old(list.messages), prefix, head, tail)
  {
    ghost var was := list.messages;
    truncated := 0;
    var i := 0;
    while i < |list.messages|
      invariant i <= |list.messages| == |was|
      invariant forall k | 0 <= k < i ::
                  list.messages[k] == if k >= prefix then Shortened(was[k], head, tail) else was[k]
      invariant forall k | i <= k < |was| :: list.messages[k] == was[k]
      invariant truncated == LongCount(was[..i], prefix, head, tail)
    {
      LongCountNext(was, i, prefix, head, tail);
      var m := list.messages[i];
      if i >= prefix && IsLong(m, head, tail) {
        list.messages := list.messages[i := m.(content := Excerpt(m.content, head, tail))];
        truncated := truncated + 1;
      }
      i := i + 1;
    }
    assert was[..|was|] == was;
    assert list.messages == Truncated(was, prefix, head, tail);
  }

  lemma {:induction false} LongCountNext(messages: seq<Message>, i: nat, prefix: nat, head: nat, tail: nat)
    requires i < |messages|
    ensures LongCount(messages[..i + 1], prefix, head, tail)
            == LongCount(messages[..i], prefix, head, tail) +
               if i >= prefix && IsLong(messages[i], head, tail) then 1 else 0
  {
    assert messages[..i + 1][..i] == messages[..i];
  }

  /** Drops the oldest evictable messages one at a time: the fewest that make the rest fit, or all of them. */
  method DropOldestUntilFits(list: MessageList, prefix: nat, available: nat, cost: Cost) returns (dropped: nat)
    modifies list
    ensures dropped == 0 ==> list.messages == old(list.messages)
    ensures dropped > 0 ==> prefix + dropped <= |old(list.messages)| &&
                            list.messages == Without(old(list.messages), prefix, dropped)
    ensures |list.messages| <= prefix || Estimate(list.messages, cost) <= available
    ensures forall n | 0 <= n < dropped :: !FitsWithout(old(list.messages), prefix, n, available, cost)
  {
    ghost var was := list.messages;
    dropped := 0;
    assert prefix <= |was| ==> Without(was, prefix, 0) == was;
    while |list.messages| > prefix && Estimate(list.messages, cost) > available
      invariant dropped == 0 ==> list.messages == was
      invariant dropped > 0 ==> prefix + dropped <= |was|
      invariant prefix + dropped <= |was| ==> list.messages == Without(was, prefix, dropped)
      invariant forall n | 0 <= n < dropped :: !FitsWithout(was, prefix, n, available, cost)
      decreases |list.messages|
    {
      list.messages := list.messages[..prefix] + list.messages[prefix + 1..];
      dropped := dropped + 1;
      assert list.messages == Without(was, prefix, dropped);
    }
  }

  // ----- What the steps do together and again.

  /** After eviction at most `keep` evictable messages carry images, and doing it again strips nothing. */
  lemma {:induction false} EvictedKeepsRecent(messages: seq<Message>, prefix: nat, keep: nat)
    requires prefix <= |messages|
    ensures var bearing := ImageBearing(messages, prefix);
            ImageBearing(Evicted(messages, prefix, keep), prefix) == if bearing < keep then bearing else keep
    ensures Evicted(Evicted(messages, prefix, keep), prefix, keep) == Evicted(messages, prefix, keep)
  {
    var after := Evicted(messages, prefix, keep);
    forall i | prefix <= i <= |messages|
      ensures ImageBearing(after, i) == if ImageBearing(messages, i) < keep then ImageBearing(messages, i) else keep
    {
      EvictedBearing(messages, prefix, keep, i);
    }
    if keep > 0 {
      forall i | 0 <= i < |after| ensures !IsStale(after, prefix, keep, i) {
        if i >= prefix && after[i].images != [] {
          assert ImageBearing(messages, i + 1) < keep;
        }
      }
    }
    assert Evicted(after, prefix, keep) == after;
  }

  lemma {:induction false} EvictedBearing(messages: seq<Message>, prefix: nat, keep: nat, from: nat)
    requires prefix <= from <= |messages|
    ensures var bearing := ImageBearing(messages, from);
            ImageBearing(Evicted(messages, prefix, keep), from) == if bearing < keep then bearing else keep
    decreases |messages| - from
  {
    if from < |messages| {
      EvictedBearing(messages, prefix, keep, from + 1);
    }
  }

  /** The protected prefix is the same before and after eviction and truncation. */
  lemma {:induction false} PrefixUntouched(messages: seq<Message>, prefix: nat, keep: nat, head: nat, tail: nat)
    requires prefix <= |messages|
    ensures Evicted(messages, prefix, keep)[..prefix] == messages[..prefix]
    ensures Truncated(messages, prefix, head, tail)[..prefix] == messages[..prefix]
  {
  }

  /** Truncating twice changes nothing more, yet counts the same messages again. */
  lemma {:induction false} TruncateTwice(messages: seq<Message>, prefix: nat, head: nat, tail: nat)
    ensures var once := Truncated(messages, prefix, head, tail);
            && Truncated(once, prefix, head, tail) == once
            && LongCount(once, prefix, head, tail) == LongCount(messages, prefix, head, tail)
  {
    var once := Truncated(messages, prefix, head, tail);
    forall i | 0 <= i < |once| ensures Truncated(once, prefix, head, tail)[i] == once[i] {
      ShortenTwice(messages[i], head, tail);
    }
    assert Truncated(once, prefix, head, tail) == once;
    SameLongCount(messages, once, prefix, head, tail);
  }

  lemma {:induction false} ShortenTwice(m: Message, head: nat, tail: nat)
    ensures Shortened(Shortened(m, head, tail), head, tail) == Shortened(m, head, tail)
    ensures IsLong(Shortened(m, head, tail), head, tail) <==> IsLong(m, head, tail)
    // Barely long results come out longer than they were.
    ensures |Shortened(m, head, tail).content| > |m.content|
            <==> IsLong(m, head, tail) && |m.content| < head + tail + |MARKER|
  {
    if IsLong(m, head, tail) {
      var e := Excerpt(m.content, head, tail);
      assert e[..head] == m.content[..head];
      assert e[|e| - tail..] == m.content[|m.content| - tail..];
    }
  }

  /** A shortened result starts and ends as it did, with the marker in between, and nothing else of it changes. */
  lemma {:induction false} ShortenedKeepsEnds(m: Message, head: nat, tail: nat)
    requires m.role == "tool" && |m.content| > head + tail
    ensures var short := Shortened(m, head, tail).content;
            && |short| == head + 21 + tail && short[..head] == m.content[..head]
            && short[|short| - tail..] == m.content[|m.content| - tail..]
            && short[head..head + 21] == "\n... [truncated] ...\n"
            && Shortened(m, head, tail) == m.(content := short)
  {
  }

  lemma {:induction false} PrefixHasNoneLong(messages: seq<Message>, prefix: nat, head: nat, tail: nat)
    ensures |messages| <= prefix ==> LongCount(messages, prefix, head, tail) == 0
  {
    if messages != [] {
      PrefixHasNoneLong(messages[..|messages| - 1], prefix, head, tail);
    }
  }

  lemma {:induction false} PrefixHasNoneStale(messages: seq<Message>, prefix: nat, keep: nat)
    ensures |messages| <= prefix ==> Evicted(messages, prefix, keep) == messages
  {
  }

  lemma {:induction false} NoneLongSame(messages: seq<Message>, prefix: nat, head: nat, tail: nat)
    ensures LongCount(messages, prefix, head, tail) == 0 ==> Truncated(messages, prefix, head, tail) == messages
  {
    if messages != [] {
      NoneLongSame(messages[..|messages| - 1], prefix, head, tail);
      var last := |messages| - 1;
      var front := Truncated(messages[..last], prefix, head, tail);
      forall i | 0 <= i < last ensures Truncated(messages, prefix, head, tail)[i] == front[i] {
      }
    }
  }

  // Stripping no image changes no message.
  lemma {:induction false} NoImagesLost(messages: seq<Message>, prefix: nat, keep: nat)
    ensures TotalImages(Evicted(messages, prefix, keep)) == TotalImages(messages) ==>
              Evicted(messages, prefix, keep) == messages
  {
    FewerImages(messages, Evicted(messages, prefix, keep));
  }

  lemma {:induction false} FewerImages(a: seq<Message>, b: seq<Message>)
    requires |a| == |b| && forall i | 0 <= i < |a| :: b[i] == a[i] || b[i] == a[i].(images := [])
    ensures TotalImages(b) <= TotalImages(a) && (TotalImages(b) == TotalImages(a) ==> b == a)
  {
    if a != [] {
      var last := |a| - 1;
      FewerImages(a[..last], b[..last]);
      assert a == a[..last] + [a[last]] && b == b[..last] + [b[last]];
      if b[last].images == a[last].images {
        assert b[last] == a[last];
      }
    }
  }

  lemma {:induction false} SameLongCount(a: seq<Message>, b: seq<Message>, prefix: nat, head: nat, tail: nat)
    requires |a| == |b|
    requires forall i | prefix <= i < |a| :: b[i] == Shortened(a[i], head, tail)
    ensures LongCount(a, prefix, head, tail) == LongCount(b, prefix, head, tail)
  {
    if a != [] {
      var last := |a| - 1;
      ShortenTwice(a[last], head, tail);
      SameLongCount(a[..last], b[..last], prefix, head, tail);
    }
  }

  /** Truncation never touches an image. */
  lemma {:induction false} TruncatedImages(messages: seq<Message>, prefix: nat, head: nat, tail: nat)
    ensures TotalImages(Truncated(messages, prefix, head, tail)) == TotalImages(messages)
  {
    SameImages(Truncated(messages, prefix, head, tail), messages);
  }

  lemma {:induction false} SameImages(a: seq<Message>, b: seq<Message>)
    requires |a| == |b| && forall i | 0 <= i < |a| :: a[i].images == b[i].images
    ensures TotalImages(a) == TotalImages(b)
  {
    if a != [] {
      SameImages(a[..|a| - 1], b[..|b| - 1]);
    }
  }
}
