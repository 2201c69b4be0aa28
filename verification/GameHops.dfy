/**
 Runs put together from parts, and the hops that bring everything sent toward a
 side closer to it.
 */
module GameHops {
  import opened GameClient
  import opened GameWorld
  import opened GamePlay

  /** Hops still needed before everything sent to side s is in its queue. */
  function Distance(w: World, s: Side): nat {
    4 * |w.clients.At(Other(s)).sending| + 3 * |w.up.At(Other(s))| + 2 * |w.down.At(s)| + |w.clients.At(s).received|
  }

  /** The next hop toward side s. */
  function HopToward(w: World, s: Side): Step {
    if w.clients.At(s).received != [] then Processed(s)
    else if w.down.At(s) != [] then Delivered(s)
    else if w.up.At(Other(s)) != [] then Relayed(Other(s))
    else Sent(Other(s))
  }

  lemma RelayedCloser(w: World, s: Side)
    requires w.present == Pair(true, true) && w.up.At(s) != []
    ensures var w' := Next(w, Relayed(s));
            && w'.clients == w.clients && |w'.up.At(s)| == |w.up.At(s)| - 1
            && |w'.down.At(Other(s))| <= |w.down.At(Other(s))| + 1 + if w.up.At(s)[0].Resume? then 1 else 0
  {
  }

  lemma ProcessedCloser(w: World, s: Side)
    requires w.present.At(s) && w.clients.At(s).received != []
    ensures var w' := Next(w, Processed(s));
            && w'.up == w.up && w'.down == w.down && w'.clients.At(Other(s)) == w.clients.At(Other(s))
            && |w'.clients.At(s).received| == |w.clients.At(s).received| - 1
  {
    var c := w.clients.At(s);
    ProcessedQueues(c.(received := c.received[1..]), c.received[0]);
  }

  lemma DeliveredCloser(w: World, s: Side)
    requires w.present.At(s) && w.down.At(s) != []
    ensures var w' := Next(w, Delivered(s));
            && w'.up == w.up && w'.clients.At(Other(s)) == w.clients.At(Other(s))
            && |w'.down.At(s)| == |w.down.At(s)| - 1 && |w'.clients.At(s).received| == |w.clients.At(s).received| + 1
  {
  }

  lemma SentCloser(w: World, s: Side)
    requires w.present.At(s) && w.clients.At(s).sending != []
    ensures var w' := Next(w, Sent(s));
            && w'.down == w.down && w'.clients.At(Other(s)) == w.clients.At(Other(s))
            && |w'.up.At(s)| == |w.up.At(s)| + 1 && |w'.clients.At(s).sending| == |w.clients.At(s).sending| - 1
  {
  }

  lemma HopCloser(w: World, s: Side)
    requires w.present == Pair(true, true) && Distance(w, s) > 0
    ensures Distance(Next(w, HopToward(w, s)), s) < Distance(w, s)
  {
    if w.clients.At(s).received != [] {
      ProcessedCloser(w, s);
    } else if w.down.At(s) != [] {
      DeliveredCloser(w, s);
    } else if w.up.At(Other(s)) != [] {
      RelayedCloser(w, Other(s));
    } else {
      SentCloser(w, Other(s));
    }
  }

  lemma RunFirst(w: World, step: Step, rest: seq<Step>)
    ensures Run(w, [step] + rest) == Run(Next(w, step), rest)
  {
    assert ([step] + rest)[1..] == rest;
  }

  lemma {:induction false} RunConcat(w: World, a: seq<Step>, b: seq<Step>)
    ensures Run(w, a + b) == Run(Run(w, a), b)
    decreases |a|
  {
    if a == [] {
      assert a + b == b;
    } else {
      assert (a + b)[1..] == a[1..] + b;
      RunConcat(Next(w, a[0]), a[1..], b);
    }
  }

  lemma AllInPlayConcat(a: seq<Step>, b: seq<Step>)
    requires AllInPlay(a) && AllInPlay(b)
    ensures AllInPlay(a + b)
  {
  }
}
