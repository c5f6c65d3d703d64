/** ADSIProg: sending compiled messages to the phone in downloads of at most 253 bytes.

    Messages are collected in a buffer that is sent when the next one would not fit.  A download is
    described by the position in the message list at which it ends, so a packing is a list of cuts. */
module AdsiPacking {
  import opened Common

  const LIMIT := 253

  /** The messages put end to end. */
  function Flat<T>(msgs: seq<seq<T>>): seq<T> {
    if msgs == [] then [] else Flat(msgs[..|msgs| - 1]) + msgs[|msgs| - 1]
  }

  lemma {:induction false} FlatConcat<T>(a: seq<seq<T>>, b: seq<seq<T>>)
    ensures Flat(a + b) == Flat(a) + Flat(b)
  {
    if b == [] {
      assert a + b == a;
    } else {
      var front, last := b[..|b| - 1], b[|b| - 1];
      FlatConcat(a, front);
      assert (a + b)[..|a + b| - 1] == a + front;
      Associative(Flat(a), Flat(front), last);
    }
  }

  /** Messages i up to j, put end to end. */
  function Part<T>(msgs: seq<seq<T>>, i: nat, j: nat): seq<T>
    requires i <= j <= |msgs|
  {
    Flat(msgs[i..j])
  }

  /** A part and the part after it. */
  lemma PartJoin<T>(msgs: seq<seq<T>>, i: nat, j: nat, k: nat)
    requires i <= j <= k <= |msgs|
    ensures Part(msgs, i, k) == Part(msgs, i, j) + Part(msgs, j, k)
  {
    assert msgs[i..k] == msgs[i..j] + msgs[j..k];
    FlatConcat(msgs[i..j], msgs[j..k]);
  }

  lemma PartNext<T>(msgs: seq<seq<T>>, i: nat, j: nat)
    requires i <= j < |msgs|
    ensures Part(msgs, i, j + 1) == Part(msgs, i, j) + msgs[j]
  {
    assert msgs[i..j + 1][..j - i] == msgs[i..j];
  }

  // ---- Groupings ----

  /** Cuts that split the messages, in order, into |cuts| - 1 groups. */
  ghost predicate Cuts<T>(cuts: seq<nat>, msgs: seq<seq<T>>) {
    && |cuts| > 0 && cuts[0] == 0 && cuts[|cuts| - 1] <= |msgs|
    && forall i, j :: 0 <= i < j < |cuts| ==> cuts[i] <= cuts[j]
  }

  /** Any way at all of sending the messages in order in downloads within the limit. */
  ghost predicate Grouping<T>(cuts: seq<nat>, msgs: seq<seq<T>>) {
    && Cuts(cuts, msgs) && cuts[|cuts| - 1] == |msgs|
    && forall i :: 0 <= i < |cuts| - 1 ==> |Part(msgs, cuts[i], cuts[i + 1])| <= LIMIT
  }

  /** A download was sent because the next message would not have fitted. */
  ghost predicate Full<T>(cuts: seq<nat>, msgs: seq<seq<T>>, i: nat)
    requires Cuts(cuts, msgs) && i < |cuts| - 1
  {
    cuts[i + 1] < |msgs| && |Part(msgs, cuts[i], cuts[i + 1] + 1)| > LIMIT
  }

  /** Greedy cuts are never behind those of another grouping. */
  lemma {:induction false} StaysAhead<T>(greedy: seq<nat>, other: seq<nat>, msgs: seq<seq<T>>, i: nat)
    requires Cuts(greedy, msgs) && Grouping(other, msgs) && i < |greedy| && i < |other|
    requires forall k :: 0 <= k < i ==> Full(greedy, msgs, k)
    ensures other[i] <= greedy[i]
  {
    if i == 0 {
    } else {
      StaysAhead(greedy, other, msgs, i - 1);
      assert Full(greedy, msgs, i - 1);
      if other[i] > greedy[i] {
        var (a, b, c, d) := (other[i - 1], greedy[i - 1], greedy[i] + 1, other[i]);
        assert greedy[i - 1] <= greedy[i];
        assert |Part(msgs, other[i - 1], other[i - 1 + 1])| <= LIMIT;
        PartJoin(msgs, a, b, d);
        PartJoin(msgs, b, c, d);
      }
    }
  }

  // ---- The loop ----

  /** What has been sent, and where the downloads were cut. */
  ghost predicate Sent<T>(sent: seq<seq<T>>, cuts: seq<nat>, msgs: seq<seq<T>>) {
    && Cuts(cuts, msgs) && |cuts| == |sent| + 1
    && forall i :: 0 <= i < |sent| ==> sent[i] == Part(msgs, cuts[i], cuts[i + 1])
  }

  ghost predicate AllFull<T>(cuts: seq<nat>, msgs: seq<seq<T>>)
    requires Cuts(cuts, msgs)
  {
    forall i :: 0 <= i < |cuts| - 1 ==> Full(cuts, msgs, i)
  }

  /** A download is within the limit, or is one message that is not. */
  ghost predicate Bounded<T>(cuts: seq<nat>, msgs: seq<seq<T>>, i: nat)
    requires Cuts(cuts, msgs) && i < |cuts| - 1
  {
    |Part(msgs, cuts[i], cuts[i + 1])| <= LIMIT || cuts[i + 1] == cuts[i] + 1
  }

  ghost predicate AllBounded<T>(cuts: seq<nat>, msgs: seq<seq<T>>)
    requires Cuts(cuts, msgs)
  {
    forall i :: 0 <= i < |cuts| - 1 ==> Bounded(cuts, msgs, i)
  }

  /** What is in the buffer: the messages since the last cut, within the limit or only one of them. */
  ghost predicate Collected<T>(buf: seq<T>, msgs: seq<seq<T>>, i: nat, x: nat) {
    i <= x <= |msgs| && buf == Part(msgs, i, x) && (|buf| <= LIMIT || x == i + 1)
  }

  lemma SendOne<T>(sent: seq<seq<T>>, cuts: seq<nat>, msgs: seq<seq<T>>, buf: seq<T>, x: nat)
    requires Sent(sent, cuts, msgs) && AllFull(cuts, msgs) && AllBounded(cuts, msgs)
    requires Collected(buf, msgs, cuts[|sent|], x)
    ensures Sent(sent + [buf], cuts + [x], msgs) && AllBounded(cuts + [x], msgs)
    ensures forall k :: 0 <= k < |sent| ==> Full(cuts + [x], msgs, k)
  {
    var cuts' := cuts + [x];
    forall k | 0 <= k < |sent| ensures Full(cuts', msgs, k) && Bounded(cuts', msgs, k) {
      assert Full(cuts, msgs, k) && Bounded(cuts, msgs, k);
    }
  }

  /** A download forced out by message x. */
  lemma SendFull<T>(sent: seq<seq<T>>, cuts: seq<nat>, msgs: seq<seq<T>>, buf: seq<T>, x: nat)
    requires Sent(sent, cuts, msgs) && AllFull(cuts, msgs) && AllBounded(cuts, msgs)
    requires Collected(buf, msgs, cuts[|sent|], x) && x < |msgs| && |buf| + |msgs[x]| > LIMIT
    ensures Sent(sent + [buf], cuts + [x], msgs) && AllFull(cuts + [x], msgs) && AllBounded(cuts + [x], msgs)
    ensures Collected(msgs[x], msgs, x, x + 1)
  {
    SendOne(sent, cuts, msgs, buf, x);
    PartNext(msgs, cuts[|sent|], x);
    PartNext(msgs, x, x);
    assert Full(cuts + [x], msgs, |sent|);
  }

  /** A message more in the buffer. */
  lemma CollectOne<T>(buf: seq<T>, msgs: seq<seq<T>>, i: nat, x: nat)
    requires Collected(buf, msgs, i, x) && x < |msgs| && |buf| + |msgs[x]| <= LIMIT
    ensures Collected(buf + msgs[x], msgs, i, x + 1)
  {
    PartNext(msgs, i, x);
  }

  /** Downloads put end to end are the messages put end to end. */
  lemma {:induction false} SentFlat<T>(sent: seq<seq<T>>, cuts: seq<nat>, msgs: seq<seq<T>>)
    requires Sent(sent, cuts, msgs)
    ensures Flat(sent) == Part(msgs, 0, cuts[|sent|])
  {
    if sent == [] {
    } else {
      var n := |sent| - 1;
      SentFlat(sent[..n], cuts[..n + 1], msgs);
      PartJoin(msgs, 0, cuts[n], cuts[n + 1]);
    }
  }

  ghost predicate AllWithin<T>(parts: seq<seq<T>>) {
    forall i :: 0 <= i < |parts| ==> |parts[i]| <= LIMIT
  }

  /** Each download was either forced out by the message after it or is the last and not empty. */
  ghost predicate Greedy<T>(sent: seq<seq<T>>, cuts: seq<nat>, msgs: seq<seq<T>>) {
    && Sent(sent, cuts, msgs)
    && forall i :: 0 <= i < |sent| ==> Full(cuts, msgs, i) || (i == |sent| - 1 && sent[i] != [])
  }

  /** Greedy downloads are as few as any way of sending the messages in order allows. */
  lemma GreedyIsLeast<T>(sent: seq<seq<T>>, cuts: seq<nat>, msgs: seq<seq<T>>, other: seq<nat>)
    requires Greedy(sent, cuts, msgs) && Grouping(other, msgs)
    ensures |sent| <= |other| - 1
  {
    var n, m := |sent|, |other| - 1;
    if m < n {
      assert sent[n - 1] == Part(msgs, cuts[n - 1], cuts[n - 1 + 1]);
      if m > 0 { assert Full(cuts, msgs, m - 1); }
      StaysAhead(cuts, other, msgs, m);
    }
  }

  /** A message that was sent makes the download it is in at least as long. */
  lemma {:induction false} MessageInDownload<T>(sent: seq<seq<T>>, cuts: seq<nat>, msgs: seq<seq<T>>, x: nat)
    returns (i: nat)
    requires Sent(sent, cuts, msgs) && x < cuts[|sent|]
    ensures i < |sent| && |msgs[x]| <= |sent[i]|
    decreases |sent|
  {
    var n := |sent| - 1;
    if cuts[n] <= x {
      PartJoin(msgs, cuts[n], x, cuts[n + 1]);
      PartJoin(msgs, x, x + 1, cuts[n + 1]);
      PartNext(msgs, x, x);
      i := n;
    } else {
      i := MessageInDownload(sent[..n], cuts[..n + 1], msgs, x);
    }
  }

  /** An unsent message at the end of a finished packing is empty. */
  lemma EmptyAfter<T>(msgs: seq<seq<T>>, i: nat, x: nat)
    requires i <= x < |msgs| && Part(msgs, i, |msgs|) == []
    ensures msgs[x] == []
  {
    PartJoin(msgs, i, x, |msgs|);
    PartJoin(msgs, x, x + 1, |msgs|);
    PartNext(msgs, x, x);
  }

  /** Downloads within the limit carry messages within the limit. */
  lemma WithinBack<T>(sent: seq<seq<T>>, cuts: seq<nat>, msgs: seq<seq<T>>)
    requires Sent(sent, cuts, msgs) && AllWithin(sent) && Part(msgs, cuts[|sent|], |msgs|) == []
    ensures AllWithin(msgs)
  {
    forall x | 0 <= x < |msgs| ensures |msgs[x]| <= LIMIT {
      if x < cuts[|sent|] {
        var i := MessageInDownload(sent, cuts, msgs, x);
      } else {
        EmptyAfter(msgs, cuts[|sent|], x);
      }
    }
  }

  /** Collects and sends the messages; `accepted` downloads are acknowledged before the phone fails. */
  method PackLoop<T>(msgs: seq<seq<T>>, accepted: nat) returns (sent: seq<seq<T>>, ok: bool, ghost cuts: seq<nat>)
    ensures Greedy(sent, cuts, msgs) && AllBounded(cuts, msgs)
    ensures ok ==> Part(msgs, cuts[|sent|], |msgs|) == []
    ensures |sent| <= accepted && (!ok ==> |sent| == accepted && cuts[|sent|] < |msgs|)
  {
    sent, cuts := [], [0];
    var buf: seq<T> := [];
    var x := 0;
    while x < |msgs|
      invariant Sent(sent, cuts, msgs) && |sent| <= accepted && AllFull(cuts, msgs) && AllBounded(cuts, msgs)
      invariant Collected(buf, msgs, cuts[|sent|], x)
    {
      if |buf| + |msgs[x]| > LIMIT {
        if |sent| == accepted { return sent, false, cuts; }
        SendFull(sent, cuts, msgs, buf, x);
        sent, cuts := sent + [buf], cuts + [x];
        buf := [];
        assert buf + msgs[x] == msgs[x];
      } else {
        CollectOne(buf, msgs, cuts[|sent|], x);
      }
      buf := buf + msgs[x];
      x := x + 1;
    }
    ok := true;
    if |buf| > 0 {
      if |sent| == accepted { return sent, false, cuts; }
      SendOne(sent, cuts, msgs, buf, x);
      sent, cuts := sent + [buf], cuts + [x];
    }
  }

  lemma WithinOne<T>(cuts: seq<nat>, msgs: seq<seq<T>>, i: nat)
    requires Cuts(cuts, msgs) && i < |cuts| - 1 && Bounded(cuts, msgs, i) && AllWithin(msgs)
    ensures |Part(msgs, cuts[i], cuts[i + 1])| <= LIMIT
    ensures Full(cuts, msgs, i) ==> Part(msgs, cuts[i], cuts[i + 1]) != []
  {
    if cuts[i + 1] == cuts[i] + 1 { PartNext(msgs, cuts[i], cuts[i]); }
    if Full(cuts, msgs, i) { PartNext(msgs, cuts[i], cuts[i + 1]); }
  }

  /** Messages within the limit go out in downloads within the limit, none of them empty. */
  lemma WithinForward<T>(sent: seq<seq<T>>, cuts: seq<nat>, msgs: seq<seq<T>>)
    requires Greedy(sent, cuts, msgs) && AllBounded(cuts, msgs) && AllWithin(msgs)
    ensures AllWithin(sent) && forall i :: 0 <= i < |sent| ==> sent[i] != []
  {
    forall i | 0 <= i < |sent| ensures |sent[i]| <= LIMIT && sent[i] != [] { WithinOne(cuts, msgs, i); }
  }

  /** Sends the messages.  When the phone takes them all, what it got is the messages end to end, no message
      split; no download is over the limit exactly when no message is, and then none is empty; and no way
      of sending them in order within the limit takes fewer downloads. */
  method Pack<T>(msgs: seq<seq<T>>, accepted: nat) returns (sent: seq<seq<T>>, ok: bool, ghost cuts: seq<nat>)
    ensures Greedy(sent, cuts, msgs)
    ensures Flat(sent) <= Flat(msgs)
    ensures |sent| <= accepted && (!ok ==> |sent| == accepted)
    ensures ok ==> Flat(sent) == Flat(msgs)
    ensures ok ==> (AllWithin(sent) <==> AllWithin(msgs))
    ensures AllWithin(msgs) ==> forall i :: 0 <= i < |sent| ==> sent[i] != []
    ensures forall other :: Grouping(other, msgs) ==> |sent| <= |other| - 1
  {
    sent, ok, cuts := PackLoop(msgs, accepted);
    SentFlat(sent, cuts, msgs);
    PartJoin(msgs, 0, cuts[|sent|], |msgs|);
    assert msgs[0..|msgs|] == msgs;
    if AllWithin(msgs) { WithinForward(sent, cuts, msgs); }
    if ok && AllWithin(sent) { WithinBack(sent, cuts, msgs); }
    forall other | Grouping(other, msgs) ensures |sent| <= |other| - 1 { GreedyIsLeast(sent, cuts, msgs, other); }
  }
}
