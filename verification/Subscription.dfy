/** The subscriber's own code, step by step, against the machine of module Handover. */
module Subscription {
  import opened Basics
  import opened LogRepo
  import opened Replay
  import opened Handover

  /** The loop over the chunks held back, run to its end. */
  ghost function Drained(c: Config, s: Sub): Sub
    requires s.phase.Released?
    decreases |s.pending|
  {
    if s.pending == [] then s else Drained(c, OnDrain(c, s))
  }

  /** The chunks of a list above a bound, each as one live output. */
  ghost function LiveAbove(held: seq<int>, bound: int): seq<Sent> {
    if held == [] then []
    else (if held[0] <= bound then [] else [Live(held[0])]) + LiveAbove(held[1..], bound)
  }

  /** Gone through undisturbed, the held chunks above the replay's number are sent, in arrival order. */
  lemma {:induction false} DrainedSends(c: Config, s: Sub)
    requires s.phase.Released?
    ensures Drained(c, s) == s.(pending := [], sent := s.sent + LiveAbove(s.pending, Threshold(c, s.phase)))
    decreases |s.pending|
  {
    if s.pending == [] {
      NothingAdded(s.sent);
    } else {
      var bound := Threshold(c, s.phase);
      var head := if s.pending[0] <= bound then [] else [Live(s.pending[0])];
      DrainedSends(c, OnDrain(c, s));
      NothingAdded(s.sent);
      assert OnDrain(c, s) == s.(pending := s.pending[1..], sent := s.sent + head);
      assert LiveAbove(s.pending, bound) == head + LiveAbove(s.pending[1..], bound);
      hide OnDrain, LiveAbove, Threshold;
      Regroup(s.sent, head, LiveAbove(s.pending[1..], bound));
    }
  }

  lemma {:induction false} HistoryOfConcat(a: seq<Row>, b: seq<Row>)
    ensures HistoryOf(a + b) == HistoryOf(a) + HistoryOf(b)
  {
    if a == [] {
      assert a + b == b;
    } else {
      assert (a + b)[0] == a[0] && (a + b)[1..] == a[1..] + b;
      HistoryOfConcat(a[1..], b);
      var head := if Displayed(a[0]) then [History(a[0].num)] else [];
      assert HistoryOf(a + b) == head + HistoryOf(a[1..] + b) && HistoryOf(a) == head + HistoryOf(a[1..]);
    }
  }

  class TerminalSub {
    const start: int
    const limit: int
    var phase: Phase
    var pending: seq<int>
    var sent: seq<Sent>

    ghost function View(): Sub
      reads this
    {
      Sub(phase, pending, sent)
    }

    ghost function Settings(): Config {
      Config(start, limit, AsWritten)
    }

    constructor (start: int, limit: int)
      ensures this.start == start && this.limit == limit
      ensures View() == Sub(Unsubscribed, [], [])
    {
      this.start, this.limit := start, limit;
      phase, pending, sent := Unsubscribed, [], [];
    }

    method SubscribeOutput()
      requires phase.Unsubscribed?
      modifies this`phase
      ensures View() == OnRegister(Settings(), old(View()))
    {
      phase := Replaying(start);
    }

    /** The handler passed to SubscribeOutput. */
    method OnOutput(row: Row)
      modifies this`pending, this`sent
      ensures View() == OnChunk(Settings(), old(View()), row)
    {
      if !row.body.Stdout? {
        return;
      }
      if !phase.Released? {
        pending := pending + [row.num];
        return;
      }
      sent := sent + [Live(row.num)];
    }

    /** One turn of the replay loop. */
    method ReplayPage(log: LogTable)
      requires phase.Replaying? && log.Valid()
      modifies this`phase, this`sent
      ensures View() == OnPage(Settings(), old(View()), log.rows)
    {
      var cursor := phase.cursor;
      var chs, hasMore := log.ReadRange(cursor, limit);
      var toSeq := 0;
      for i := 0 to |chs|
        invariant sent == old(sent) + HistoryOf(chs[..i])
        invariant toSeq == if i == 0 then 0 else chs[i - 1].num
      {
        toSeq := chs[i].num;
        assert chs[..i + 1] == chs[..i] + [chs[i]];
        HistoryOfConcat(chs[..i], [chs[i]]);
        if Displayed(chs[i]) {
          sent := sent + [History(chs[i].num)];
        }
      }
      assert chs[..|chs|] == chs;
      if |chs| == 0 || !hasMore {
        phase := Replayed(cursor - 1, if |chs| == 0 then cursor - 1 else toSeq, false);
      } else {
        phase := Replaying(toSeq + 1);
      }
    }

    /** Ends the hold and sends what was held back, unless the replay already covered it. */
    method ReleaseHeld()
      requires phase.Replayed?
      modifies this
      ensures View() == Drained(Settings(), OnRelease(old(View())))
    {
      var lastSeq := phase.last;
      phase := Released(phase.last, phase.top, phase.failed);
      ghost var released := View();
      while pending != []
        invariant phase == released.phase && lastSeq == phase.last
        invariant Drained(Settings(), View()) == Drained(Settings(), released)
        decreases |pending|
      {
        var num := pending[0];
        pending := pending[1..];
        if num > lastSeq {
          sent := sent + [Live(num)];
        }
      }
    }
  }
}
