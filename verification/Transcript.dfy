/** The persisted history: pruned from the front on every push, never rebuilt. */
module Transcripts {
  import opened Wrappers
  import opened Prompt

  // Whether the system prompt and the history from `k` on fit together.
  predicate FitsFrom(system: Message, history: seq<Message>, k: nat, max: nat, cost: Cost) {
    k <= |history| && Estimate([system] + history[k..], cost) <= max
  }

  /** Where the longest suffix that fits beside the system prompt starts; past the end when none does. */
  function KeepFrom(system: Message, history: seq<Message>, max: nat, cost: Cost): (k: nat)
    ensures k <= |history|
    ensures k < |history| ==> FitsFrom(system, history, k, max, cost)
    ensures forall j | 0 <= j < k :: !FitsFrom(system, history, j, max, cost)
  {
    FirstFit(system, history, 0, max, cost)
  }

  function FirstFit(system: Message, history: seq<Message>, from: nat, max: nat, cost: Cost): (k: nat)
    requires from <= |history|
    ensures from <= k <= |history|
    ensures k < |history| ==> FitsFrom(system, history, k, max, cost)
    ensures forall j | from <= j < k :: !FitsFrom(system, history, j, max, cost)
    decreases |history| - from
  {
    if from == |history| || FitsFrom(system, history, from, max, cost) then from
    else FirstFit(system, history, from + 1, max, cost)
  }

  function Pruned(system: Message, history: seq<Message>, max: nat, cost: Cost): seq<Message> {
    [system] + history[KeepFrom(system, history, max, cost)..]
  }

  class Transcript {
    var messages: seq<Message>

    ghost predicate Valid()
      reads this
    {
      messages != []
    }

    constructor (system: Message)
      ensures Valid() && messages == [system]
    {
      messages := [system];
    }

    /** The system prompt, then the longest suffix of what was kept and the new message that fits beside it. */
    method Push(message: Message, cost: Cost, max: nat)
      requires Valid()
      modifies this
      ensures Valid() && messages == Pruned(old(messages[0]), old(messages)[1..] + [message], max, cost)
    {
      ghost var system, all := messages[0], messages[1..] + [message];
      messages := messages + [message];
      ghost var k := 0;
      assert all[0..] == all;
      while |messages| > 1 && Estimate(messages, cost) > max
        invariant k <= |all| && messages == [system] + all[k..]
        invariant forall j | 0 <= j < k :: !FitsFrom(system, all, j, max, cost)
        decreases |messages|
      {
        messages := messages[..1] + messages[2..];
        k := k + 1;
        assert messages == [system] + all[k..];
      }
      assert k < |all| ==> FitsFrom(system, all, k, max, cost);
      assert k == KeepFrom(system, all, max, cost);
    }

    method Snapshot() returns (copy: seq<Message>)
      ensures copy == messages
    {
      copy := messages;
    }

    method SystemPrompt() returns (prompt: Option<string>)
      ensures prompt == if messages != [] && messages[0].role == "system" then Some(messages[0].content) else None
    {
      if messages == [] || messages[0].role != "system" {
        return None;
      }
      prompt := Some(messages[0].content);
    }
  }

  // ----- Incremental pruning against pruning from scratch.

  datatype Pushed = Pushed(message: Message, max: nat)

  function Messages(pushes: seq<Pushed>): (s: seq<Message>)
    ensures |s| == |pushes|
  {
    seq(|pushes|, i requires 0 <= i < |pushes| => pushes[i].message)
  }

  // The transcript after a run of pushes.
  function AfterPushes(system: Message, pushes: seq<Pushed>, cost: Cost): (s: seq<Message>)
    ensures s != [] && s[0] == system
  {
    if pushes == [] then [system]
    else
      var before := AfterPushes(system, pushes[..|pushes| - 1], cost);
      var last := pushes[|pushes| - 1];
      Pruned(before[0], before[1..] + [last.message], last.max, cost)
  }

  // The budget never grows; in particular it may be fixed.
  ghost predicate NeverGrows(pushes: seq<Pushed>) {
    forall i, j | 0 <= i < j < |pushes| :: pushes[j].max <= pushes[i].max
  }

  /**
   With a budget that never grows, what is kept is the system prompt and the longest suffix of the entire push
   history that fits beside it: pruning as it goes loses nothing a computation from scratch would keep.
   */
  lemma {:induction false} KeepsLongestSuffix(system: Message, pushes: seq<Pushed>, cost: Cost)
    requires pushes != [] && NeverGrows(pushes)
    ensures AfterPushes(system, pushes, cost)
            == Pruned(system, Messages(pushes), pushes[|pushes| - 1].max, cost)
  {
    var n := |pushes| - 1;
    var front, last := pushes[..n], pushes[n];
    var history := Messages(front);
    assert Messages(pushes) == history + [last.message];
    if n == 0 {
      assert AfterPushes(system, front, cost) == [system];
      assert [system][1..] + [last.message] == Messages(pushes);
    } else {
      KeepsLongestSuffix(system, front, cost);
      var k := KeepFrom(system, history, pushes[n - 1].max, cost);
      assert AfterPushes(system, front, cost)[1..] == history[k..];
      PruneAgain(system, history, k, pushes[n - 1].max, last, cost);
    }
  }

  // What an earlier push dropped, no later one could have kept.
  lemma {:induction false} PruneAgain(system: Message, history: seq<Message>, k: nat, max: nat, last: Pushed,
      cost: Cost)
    requires k == KeepFrom(system, history, max, cost) && last.max <= max
    ensures Pruned(system, history[k..] + [last.message], last.max, cost)
            == Pruned(system, history + [last.message], last.max, cost)
  {
    var all, kept := history + [last.message], history[k..] + [last.message];
    var from := KeepFrom(system, all, last.max, cost);
    if from < k {
      assert all[from..] == history[from..] + [last.message];
      assert [system] + all[from..] == ([system] + history[from..]) + [last.message];
      EstimateConcat([system] + history[from..], [last.message], cost);
      assert FitsFrom(system, history, from, max, cost);
    }
    SuffixFits(system, all, k, last.max, cost);
    assert kept == all[k..];
  }

  lemma {:induction false} SuffixFits(system: Message, all: seq<Message>, k: nat, max: nat, cost: Cost)
    requires k <= KeepFrom(system, all, max, cost)
    ensures Pruned(system, all[k..], max, cost) == Pruned(system, all, max, cost)
  {
    var from, inner := KeepFrom(system, all, max, cost), KeepFrom(system, all[k..], max, cost);
    assert all[k..][inner..] == all[k + inner..];
    if k + inner < from {
      assert FitsFrom(system, all, k + inner, max, cost);
    } else if k + inner > from {
      assert all[k..][from - k..] == all[from..];
      assert FitsFrom(system, all[k..], from - k, max, cost);
    }
  }

  /** Whatever the budgets, only the front of the history is ever lost, and the system prompt never. */
  lemma {:induction false} OnlyFrontLost(system: Message, pushes: seq<Pushed>, cost: Cost) returns (k: nat)
    ensures k <= |pushes| && AfterPushes(system, pushes, cost) == [system] + Messages(pushes)[k..]
  {
    if pushes == [] {
      k := 0;
    } else {
      var n := |pushes| - 1;
      var inner := OnlyFrontLost(system, pushes[..n], cost);
      var before := AfterPushes(system, pushes[..n], cost);
      var kept := before[1..] + [pushes[n].message];
      assert Messages(pushes) == Messages(pushes[..n]) + [pushes[n].message];
      assert kept == Messages(pushes)[inner..];
      var more := KeepFrom(system, kept, pushes[n].max, cost);
      k := inner + more;
      SliceOfSlice(Messages(pushes), inner, more);
    }
  }

  lemma {:induction false} SliceOfSlice(s: seq<Message>, i: nat, j: nat)
    requires i + j <= |s|
    ensures s[i..][j..] == s[i + j..]
  {
  }
}
