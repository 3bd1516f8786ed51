/**
 * The shape every movement primitive shares: a `while not <exit test>:` loop that reads the
 * hardware, feeds an error to its controller(s) and commands both drive motors. The hardware
 * is abstracted as a finite sequence of readings, one per evaluation of the exit test, and
 * the motors as the trace of commands the loop issues.
 */
module Polling {

  /** A command to the pair of drive motors: `run` on each, or `hold` on both. */
  datatype MotorEvent = Drive(left: real, right: real) | HoldBoth

  /** The same command with both wheels' directions reversed. */
  function Reversed(e: MotorEvent): (r: MotorEvent)
    ensures e.Drive? ==> r == Drive(-e.left, -e.right)
    ensures e.HoldBoth? ==> r == HoldBoth
  {
    match e
    case Drive(l, r) => Drive(-l, -r)
    case HoldBoth => HoldBoth
  }

  /**
   * What a loop did with a prefix of its readings: the commands issued, whether the exit
   * test held (`false`: the readings ran out while it was still polling), how many readings
   * it examined, and the controller state it left behind.
   */
  datatype Outcome<S> = Outcome(events: seq<MotorEvent>, exited: bool, consumed: nat, state: S)

  /** Commands issued, and readings consumed one for one, before `o`. */
  function Prepend<S>(events: seq<MotorEvent>, o: Outcome<S>): Outcome<S>
  {
    Outcome(events + o.events, o.exited, |events| + o.consumed, o.state)
  }

  /**
   * `while not done(reading): state, command = tick(state, reading)`: the exit test is
   * evaluated before every iteration; each iteration issues one command.
   */
  function Poll<R, S>(done: R -> bool, tick: (S, R) -> (S, MotorEvent), s: S, rs: seq<R>): Outcome<S>
    decreases |rs|
  {
    if |rs| == 0 then Outcome([], false, 0, s)
    else if done(rs[0]) then Outcome([], true, 1, s)
    else Prepend([tick(s, rs[0]).1], Poll(done, tick, tick(s, rs[0]).0, rs[1..]))
  }

  /** The index of the first reading that satisfies the exit test, or `|rs|` if none does. */
  function FirstDone<R>(done: R -> bool, rs: seq<R>): (k: nat)
    ensures k <= |rs|
    ensures forall j :: 0 <= j < k ==> !done(rs[j])
    ensures k < |rs| ==> done(rs[k])
    decreases |rs|
  {
    if |rs| == 0 || done(rs[0]) then 0
    else
      var k := FirstDone(done, rs[1..]);
      assert forall j :: 1 <= j < k + 1 ==> rs[j] == rs[1..][j - 1];
      1 + k
  }

  /** One unrolling of the loop, for the methods that implement it. */
  lemma PollStep<R, S>(done: R -> bool, tick: (S, R) -> (S, MotorEvent), s: S, rs: seq<R>)
    requires |rs| > 0 && !done(rs[0])
    ensures Poll(done, tick, s, rs) == Prepend([tick(s, rs[0]).1], Poll(done, tick, tick(s, rs[0]).0, rs[1..]))
  {
  }

  /**
   * One iteration of a loop that implements `Poll`: with `issued` already sent and a reading
   * that fails the exit test, the tick's command joins `issued` and polling resumes from the
   * tick's state on the remaining readings.
   */
  lemma PollAdvance<R, S>(done: R -> bool, tick: (S, R) -> (S, MotorEvent), s: S, rs: seq<R>,
                          issued: seq<MotorEvent>, s': S, e: MotorEvent)
    requires |rs| > 0 && !done(rs[0]) && tick(s, rs[0]) == (s', e)
    ensures Prepend(issued, Poll(done, tick, s, rs)) == Prepend(issued + [e], Poll(done, tick, s', rs[1..]))
  {
    PrependTwice(issued, [e], Poll(done, tick, s', rs[1..]));
  }

  lemma PrependNothing<S>(o: Outcome<S>)
    ensures Prepend([], o) == o
  {
    assert [] + o.events == o.events;
  }

  lemma PrependTwice<S>(a: seq<MotorEvent>, b: seq<MotorEvent>, o: Outcome<S>)
    ensures Prepend(a, Prepend(b, o)) == Prepend(a + b, o)
  {
    assert a + (b + o.events) == (a + b) + o.events;
  }

  /**
   * The loop leaves at the first reading that satisfies the exit test, having issued exactly
   * one command per earlier reading; if no reading satisfies it, it is still polling.
   */
  lemma {:induction false} PollExitsAtFirstDone<R, S>(done: R -> bool, tick: (S, R) -> (S, MotorEvent), s: S, rs: seq<R>)
    ensures var o := Poll(done, tick, s, rs);
            var k := FirstDone(done, rs);
            && |o.events| == k
            && (o.exited <==> k < |rs|)
            && o.consumed == (if k < |rs| then k + 1 else |rs|)
    decreases |rs|
  {
    if |rs| > 0 && !done(rs[0]) {
      PollExitsAtFirstDone(done, tick, tick(s, rs[0]).0, rs[1..]);
    }
  }

  /** A property of every command one tick can issue holds of every command in the trace. */
  lemma {:induction false} PollKeepsShape<R, S>(done: R -> bool, tick: (S, R) -> (S, MotorEvent), s: S, rs: seq<R>, shape: MotorEvent -> bool)
    requires forall s': S, r: R :: shape(tick(s', r).1)
    ensures forall i :: 0 <= i < |Poll(done, tick, s, rs).events| ==> shape(Poll(done, tick, s, rs).events[i])
    decreases |rs|
  {
    if |rs| > 0 && !done(rs[0]) {
      PollKeepsShape(done, tick, tick(s, rs[0]).0, rs[1..], shape);
    }
  }

  /** `[f(x) for x in xs]` */
  function Map<A, B>(f: A -> B, xs: seq<A>): (ys: seq<B>)
    ensures |ys| == |xs| && forall i :: 0 <= i < |xs| ==> ys[i] == f(xs[i])
  {
    seq(|xs|, i requires 0 <= i < |xs| => f(xs[i]))
  }

  /** The outputs a controller returns when fed `errors` one update at a time from state `s`. */
  function Responses<S, E, O>(update: (S, E) -> (S, O), s: S, errors: seq<E>): (outs: seq<O>)
    ensures |outs| == |errors|
    decreases |errors|
  {
    if |errors| == 0 then [] else [update(s, errors[0]).1] + Responses(update, update(s, errors[0]).0, errors[1..])
  }

  /** The controller state after feeding it `errors` one update at a time from state `s`. */
  function Settle<S, E, O>(update: (S, E) -> (S, O), s: S, errors: seq<E>): S
    decreases |errors|
  {
    if |errors| == 0 then s else Settle(update, update(s, errors[0]).0, errors[1..])
  }

  /** A property every single update preserves holds after any number of updates. */
  lemma {:induction false} SettleKeeps<S, E, O>(update: (S, E) -> (S, O), inv: S -> bool, s: S, errors: seq<E>)
    requires inv(s)
    requires forall s': S, e: E :: inv(s') ==> inv(update(s', e).0)
    ensures inv(Settle(update, s, errors))
    decreases |errors|
  {
    if |errors| > 0 {
      SettleKeeps(update, inv, update(s, errors[0]).0, errors[1..]);
    }
  }

  /** A property every single output has holds of every response in any sequence of updates. */
  lemma {:induction false} ResponsesKeep<S, E, O>(update: (S, E) -> (S, O), ok: O -> bool, s: S, errors: seq<E>)
    requires forall s': S, e: E :: ok(update(s', e).1)
    ensures forall i :: 0 <= i < |errors| ==> ok(Responses(update, s, errors)[i])
    decreases |errors|
  {
    if |errors| > 0 {
      ResponsesKeep(update, ok, update(s, errors[0]).0, errors[1..]);
    }
  }

  /**
   * When each tick feeds the error `err(reading)` to a controller and turns its output into a
   * command with `command`, the trace is exactly the controller's responses to the errors of
   * the readings before the exit, and the controller ends in the state those errors lead to.
   */
  lemma {:induction false} PollThroughController<R, S, E, O>(
    done: R -> bool, tick: (S, R) -> (S, MotorEvent),
    update: (S, E) -> (S, O), err: R -> E, command: O -> MotorEvent, s: S, rs: seq<R>)
    requires forall s': S, r: R :: tick(s', r) == (update(s', err(r)).0, command(update(s', err(r)).1))
    ensures var o := Poll(done, tick, s, rs);
            var errors := Map(err, rs[..FirstDone(done, rs)]);
            && o.events == Map(command, Responses(update, s, errors))
            && o.state == Settle(update, s, errors)
    decreases |rs|
  {
    if |rs| > 0 && !done(rs[0]) {
      var k := FirstDone(done, rs);
      var errors := Map(err, rs[..k]);
      var s' := tick(s, rs[0]).0;
      assert errors[0] == err(rs[0]);
      assert s' == update(s, errors[0]).0;
      PollThroughController(done, tick, update, err, command, s', rs[1..]);
      assert FirstDone(done, rs[1..]) == k - 1;
      assert rs[..k][1..] == rs[1..][..k - 1];
      assert errors[1..] == Map(err, rs[1..][..k - 1]);
      var rest := Responses(update, s', errors[1..]);
      assert Responses(update, s, errors) == [update(s, errors[0]).1] + rest;
      assert Map(command, [update(s, errors[0]).1] + rest) == [command(update(s, errors[0]).1)] + Map(command, rest);
    }
  }

  /**
   * When each tick feeds one controller per side with that side's own error and combines the
   * two outputs into one command, each side's outputs are exactly its own controller's
   * responses to its own errors, and each controller ends in the state its own errors lead to:
   * the sides share the exit test and nothing else.
   */
  lemma {:induction false} PollThroughTwoControllers<R, S, E, O>(
    done: R -> bool, tick: ((S, S), R) -> ((S, S), MotorEvent),
    update: (S, E) -> (S, O), leftErr: R -> E, rightErr: R -> E, command: (O, O) -> MotorEvent,
    s: (S, S), rs: seq<R>)
    requires forall s': (S, S), r: R ::
               tick(s', r) == ((update(s'.0, leftErr(r)).0, update(s'.1, rightErr(r)).0),
                               command(update(s'.0, leftErr(r)).1, update(s'.1, rightErr(r)).1))
    ensures var o := Poll(done, tick, s, rs);
            var k := FirstDone(done, rs);
            var lefts := Map(leftErr, rs[..k]);
            var rights := Map(rightErr, rs[..k]);
            && |o.events| == k
            && (forall i :: 0 <= i < k ==>
                  o.events[i] == command(Responses(update, s.0, lefts)[i], Responses(update, s.1, rights)[i]))
            && o.state == (Settle(update, s.0, lefts), Settle(update, s.1, rights))
    decreases |rs|
  {
    if |rs| > 0 && !done(rs[0]) {
      var s' := tick(s, rs[0]).0;
      PollThroughTwoControllers(done, tick, update, leftErr, rightErr, command, s', rs[1..]);
      var k := FirstDone(done, rs);
      assert rs[..k][1..] == rs[1..][..k - 1];
      var lefts := Map(leftErr, rs[..k]);
      var rights := Map(rightErr, rs[..k]);
      assert lefts[1..] == Map(leftErr, rs[1..][..k - 1]);
      assert rights[1..] == Map(rightErr, rs[1..][..k - 1]);
      assert s' == (update(s.0, lefts[0]).0, update(s.1, rights[0]).0);
    }
  }

  /**
   * Two loops with the same exit test whose ticks differ only by a fixed rewriting of the
   * command issue the rewritten trace and end in the same state.
   */
  lemma {:induction false} PollMapsCommands<R, S>(
    done: R -> bool, tick: (S, R) -> (S, MotorEvent), tick': (S, R) -> (S, MotorEvent),
    f: MotorEvent -> MotorEvent, s: S, rs: seq<R>)
    requires forall s0: S, r: R :: tick'(s0, r) == (tick(s0, r).0, f(tick(s0, r).1))
    ensures var o := Poll(done, tick, s, rs);
            Poll(done, tick', s, rs) == Outcome(Map(f, o.events), o.exited, o.consumed, o.state)
    decreases |rs|
  {
    if |rs| > 0 && !done(rs[0]) {
      PollMapsCommands(done, tick, tick', f, tick(s, rs[0]).0, rs[1..]);
    }
  }
}
