/** BlockGroup: one rectangular region of the canvas and the ordered list of
    blocks placed into it, filled by `auto_append_block`'s retry loop.

    The collaborators the loop consults are not part of this model and are
    replaced by what they answered: each attempt of the loop reads one
    `Attempt` record, giving the random orientation the fallback strategy
    would draw, what the text-image supplier returned (nothing, or a
    rendered text with the size of its rotated image) and what the picked
    strategy's `logic` decided (reject, or accept with the block moved so
    that its image starts at a chosen point). */
module BlockGroups {
  import opened Geometry
  import opened Blocks

  /** Which strategy class `strategy_controller.pick()` returned; the
      accumulator tells five of them apart and treats every other one alike. */
  datatype StrategyKind =
    | HorizontalStrategy
    | VerticalStrategy
    | HorizontalFlowStrategy
    | VerticalFlowStrategy
    | CustomizationStrategy1
    | OtherStrategy

  /** Failed attempts allowed per call of `auto_append_block`. */
  const RetryTimes: nat := 5

  /** Margin of every block the accumulator generates. */
  const GeneratedMargin: int := 10

  /** A text image as the supplier rendered it, with the width and height
      its image has once rotated. */
  datatype Rendered = Rendered(textImg: TextImg, rotatedWidth: nat, rotatedHeight: nat)

  /** The answers of the collaborators to one attempt of the retry loop. */
  datatype Attempt = Attempt(fallbackPick: Orientation, supplied: Option<Rendered>, verdict: Option<Point>)

  /** One attempt as it happened: the orientation requested from the
      supplier, and the block appended, if any. */
  datatype StepLog = StepLog(requested: Orientation, placed: Option<BlockValue>)

  /** The orientation `_gen_block` asks the supplier for. Row and column
      strategies ask for text running across their stacking direction, flow
      strategies along it; `CustomizationStrategy1` asks for a vertical label
      while the group is empty and horizontal text after that; any other
      strategy takes the random pick. */
  function ForcedOrientation(strategy: StrategyKind, hasBlocks: bool, fallbackPick: Orientation): (o: Orientation)
    ensures strategy == HorizontalStrategy ==> o == Vertical
    ensures strategy == VerticalStrategy ==> o == Horizontal
    ensures strategy == HorizontalFlowStrategy ==> o == Horizontal
    ensures strategy == VerticalFlowStrategy ==> o == Vertical
    ensures strategy == CustomizationStrategy1 ==> (o == Vertical <==> !hasBlocks)
    ensures strategy == OtherStrategy ==> o == fallbackPick
  {
    match strategy
    case HorizontalStrategy => Vertical
    case VerticalStrategy => Horizontal
    case HorizontalFlowStrategy => Horizontal
    case VerticalFlowStrategy => Vertical
    case CustomizationStrategy1 => if hasBlocks then Horizontal else Vertical
    case OtherStrategy => fallbackPick
  }

  /** A block as the loop generates it: a text block with margin 10, its
      boxes derived from its rotated size. */
  predicate Generated(v: BlockValue)
  {
    Located(v) && v.margin == GeneratedMargin && v.kind.Text?
  }

  /** The block one attempt appends: there is one exactly when the supplier
      produced a text image and the strategy accepted the block built from it. */
  function AttemptBlock(a: Attempt): (r: Option<BlockValue>)
    ensures r.Some? <==> a.supplied.Some? && a.verdict.Some?
    ensures r.Some? ==> Generated(r.value)
    ensures r.Some? ==>
      (r.value.kind == Text(a.supplied.value.textImg)
       && r.value.innerWidth == a.supplied.value.rotatedWidth
       && r.value.innerHeight == a.supplied.value.rotatedHeight
       && r.value.innerBox.x0 == a.verdict.value.x
       && r.value.innerBox.y0 == a.verdict.value.y)
  {
    match (a.supplied, a.verdict)
    case (Some(t), Some(p)) => Some(PlacedAt(Text(t.textImg), t.rotatedWidth, t.rotatedHeight, GeneratedMargin, p))
    case _ => None
  }

  /** The attempts the retry loop makes, starting with `retryTimes` failures
      still allowed, on a group that does (`hasBlocks`) or does not hold
      blocks yet. A success leaves the budget alone; a failure spends one
      unit of it. The loop also stops when `script` runs out. */
  function Attempts(strategy: StrategyKind, hasBlocks: bool, script: seq<Attempt>, retryTimes: nat): (log: seq<StepLog>)
    ensures log == [] <==> retryTimes == 0 || script == []
    decreases |script|
  {
    if retryTimes == 0 || script == [] then []
    else
      var placed := AttemptBlock(script[0]);
      [StepLog(ForcedOrientation(strategy, hasBlocks, script[0].fallbackPick), placed)]
        + Attempts(strategy, hasBlocks || placed.Some?, script[1..],
                   if placed.Some? then retryTimes else retryTimes - 1)
  }

  /** The blocks appended along a log, in order. */
  function AppendedBlocks(log: seq<StepLog>): seq<BlockValue>
  {
    if log == [] then []
    else (if log[0].placed.Some? then [log[0].placed.value] else []) + AppendedBlocks(log[1..])
  }

  /** The number of failed attempts in a log. */
  function Failures(log: seq<StepLog>): nat
  {
    if log == [] then 0
    else (if log[0].placed.None? then 1 else 0) + Failures(log[1..])
  }

  /** One turn of the loop: the attempt at `script[i]` followed by the rest. */
  lemma AttemptsStep(strategy: StrategyKind, hasBlocks: bool, script: seq<Attempt>, i: nat, retryTimes: nat)
    requires retryTimes > 0 && i < |script|
    ensures var placed := AttemptBlock(script[i]);
      Attempts(strategy, hasBlocks, script[i..], retryTimes)
      == [StepLog(ForcedOrientation(strategy, hasBlocks, script[i].fallbackPick), placed)]
         + Attempts(strategy, hasBlocks || placed.Some?, script[i + 1..],
                    if placed.Some? then retryTimes else retryTimes - 1)
  {
  }

  /** What one turn of the loop does to the log of attempts made so far
      and to the attempts still to come. */
  lemma LoopStep(strategy: StrategyKind, hasBlocks: bool, script: seq<Attempt>, i: nat, retryTimes: nat,
                 log: seq<StepLog>, step: StepLog)
    requires retryTimes > 0 && i < |script|
    requires step == StepLog(ForcedOrientation(strategy, hasBlocks, script[i].fallbackPick), AttemptBlock(script[i]))
    ensures var placed := AttemptBlock(script[i]);
      log + Attempts(strategy, hasBlocks, script[i..], retryTimes)
      == (log + [step]) + Attempts(strategy, hasBlocks || placed.Some?, script[i + 1..],
                                   if placed.Some? then retryTimes else retryTimes - 1)
    ensures AppendedBlocks(log + [step]) == AppendedBlocks(log) + (if step.placed.Some? then [step.placed.value] else [])
  {
    AttemptsStep(strategy, hasBlocks, script, i, retryTimes);
    PlacedConcat(log, [step]);
    assert [step][1..] == [];
  }

  lemma {:induction false} PlacedConcat(a: seq<StepLog>, b: seq<StepLog>)
    ensures AppendedBlocks(a + b) == AppendedBlocks(a) + AppendedBlocks(b)
    decreases |a|
  {
    if a != [] {
      assert (a + b)[1..] == a[1..] + b;
      PlacedConcat(a[1..], b);
    } else {
      assert a + b == b;
    }
  }

  /** Every attempt either appends a block or counts as a failure. */
  lemma {:induction false} PlacedPlusFailures(log: seq<StepLog>)
    ensures |AppendedBlocks(log)| + Failures(log) == |log|
    decreases |log|
  {
    if log != [] {
      PlacedPlusFailures(log[1..]);
    }
  }

  /** The log has no success in it exactly when nothing was appended. */
  lemma {:induction false} PlacedEmpty(log: seq<StepLog>)
    ensures AppendedBlocks(log) == [] <==> forall i :: 0 <= i < |log| ==> log[i].placed.None?
    decreases |log|
  {
    if log != [] {
      PlacedEmpty(log[1..]);
      assert forall i :: 1 <= i < |log| ==> log[i] == log[1..][i - 1];
    }
  }

  /** The retry budget: the loop makes at most one attempt per answer in the
      script, each attempt's outcome is decided by its own answer, failures
      never exceed the budget, and unless the script ran out the loop ended
      after exactly `retryTimes` failures, the last attempt being one of them.
      Successes do not end the loop. */
  lemma {:induction false} AttemptsBudget(strategy: StrategyKind, hasBlocks: bool, script: seq<Attempt>, retryTimes: nat)
    ensures var log := Attempts(strategy, hasBlocks, script, retryTimes);
      |log| <= |script|
      && (forall i :: 0 <= i < |log| ==> log[i].placed == AttemptBlock(script[i]))
      && Failures(log) <= retryTimes
      && (Failures(log) == retryTimes || |log| == |script|)
      && (retryTimes > 0 && Failures(log) == retryTimes ==> log != [] && log[|log| - 1].placed.None?)
    decreases |script|
  {
    var log := Attempts(strategy, hasBlocks, script, retryTimes);
    if retryTimes == 0 || script == [] {
      assert log == [];
    } else {
      var placed := AttemptBlock(script[0]);
      var budget := if placed.Some? then retryTimes else retryTimes - 1;
      var rest := Attempts(strategy, hasBlocks || placed.Some?, script[1..], budget);
      var head := StepLog(ForcedOrientation(strategy, hasBlocks, script[0].fallbackPick), placed);
      AttemptsBudget(strategy, hasBlocks || placed.Some?, script[1..], budget);
      assert log == [head] + rest;
      assert log[1..] == rest;
      assert Failures(log) == (if placed.None? then 1 else 0) + Failures(rest);
      forall i | 1 <= i < |log|
        ensures log[i].placed == AttemptBlock(script[i])
      {
        assert log[i] == rest[i - 1];
        assert script[i] == script[1..][i - 1];
      }
      if retryTimes > 0 && Failures(log) == retryTimes {
        if rest == [] {
          assert log == [head];
        } else {
          assert log[|log| - 1] == rest[|rest| - 1];
        }
      }
    }
  }

  /** A success among the first i entries of `head` followed by `rest` is
      `head`'s own or one among the first i - 1 entries of `rest`. */
  lemma PlacedConsPrefix(head: StepLog, rest: seq<StepLog>, i: nat)
    requires 0 < i <= |rest| + 1
    ensures AppendedBlocks(([head] + rest)[..i]) != [] <==> head.placed.Some? || AppendedBlocks(rest[..i - 1]) != []
  {
    assert ([head] + rest)[..i] == [head] + rest[..i - 1];
    PlacedConcat([head], rest[..i - 1]);
    assert [head][1..] == [];
  }

  /** The orientation requested at each attempt is the strategy's forced
      orientation given whether the group held a block at that moment:
      before the call, or appended by an earlier attempt of the same call. */
  lemma {:induction false} AttemptsRequests(strategy: StrategyKind, hasBlocks: bool, script: seq<Attempt>, retryTimes: nat)
    ensures var log := Attempts(strategy, hasBlocks, script, retryTimes);
      |log| <= |script| &&
      forall i :: 0 <= i < |log| ==>
        log[i].requested == ForcedOrientation(strategy, hasBlocks || AppendedBlocks(log[..i]) != [], script[i].fallbackPick)
    decreases |script|
  {
    var log := Attempts(strategy, hasBlocks, script, retryTimes);
    AttemptsBudget(strategy, hasBlocks, script, retryTimes);
    if retryTimes > 0 && script != [] {
      var placed := AttemptBlock(script[0]);
      var budget := if placed.Some? then retryTimes else retryTimes - 1;
      var rest := Attempts(strategy, hasBlocks || placed.Some?, script[1..], budget);
      var head := StepLog(ForcedOrientation(strategy, hasBlocks, script[0].fallbackPick), placed);
      AttemptsRequests(strategy, hasBlocks || placed.Some?, script[1..], budget);
      assert log == [head] + rest;
      forall i | 0 <= i < |log|
        ensures log[i].requested == ForcedOrientation(strategy, hasBlocks || AppendedBlocks(log[..i]) != [], script[i].fallbackPick)
      {
        if i == 0 {
          assert log[..0] == [];
        } else {
          assert log[i] == rest[i - 1];
          assert script[i] == script[1..][i - 1];
          PlacedConsPrefix(head, rest, i);
          assert rest[i - 1].requested
            == ForcedOrientation(strategy, (hasBlocks || placed.Some?) || AppendedBlocks(rest[..i - 1]) != [], script[1..][i - 1].fallbackPick);
        }
      }
    }
  }

  /** `CustomizationStrategy1` on an empty group: every attempt up to and
      including the one that places the first block asks for vertical text,
      every attempt after it for horizontal text. */
  lemma CustomizationLabelThenValues(script: seq<Attempt>, retryTimes: nat)
    ensures var log := Attempts(CustomizationStrategy1, false, script, retryTimes);
      forall i :: 0 <= i < |log| ==>
        (log[i].requested == Vertical <==> forall j :: 0 <= j < i ==> log[j].placed.None?)
  {
    var log := Attempts(CustomizationStrategy1, false, script, retryTimes);
    AttemptsRequests(CustomizationStrategy1, false, script, retryTimes);
    forall i | 0 <= i < |log|
      ensures log[i].requested == Vertical <==> forall j :: 0 <= j < i ==> log[j].placed.None?
    {
      PlacedEmpty(log[..i]);
      assert forall j :: 0 <= j < i ==> log[..i][j] == log[j];
    }
  }

  /** Every block a call appends is a generated text block: margin 10 and
      an outer box that is its inner box grown by 10 on each side. */
  lemma {:induction false} PlacedAreGenerated(log: seq<StepLog>)
    requires forall i :: 0 <= i < |log| && log[i].placed.Some? ==> Generated(log[i].placed.value)
    ensures forall k :: 0 <= k < |AppendedBlocks(log)| ==> Generated(AppendedBlocks(log)[k])
    decreases |log|
  {
    if log != [] {
      PlacedAreGenerated(log[1..]);
    }
  }

  /** Every block a call of the loop appends is a generated text block. */
  lemma AppendedAreGenerated(strategy: StrategyKind, hasBlocks: bool, script: seq<Attempt>, retryTimes: nat)
    ensures var log := Attempts(strategy, hasBlocks, script, retryTimes);
      forall k :: 0 <= k < |AppendedBlocks(log)| ==> Generated(AppendedBlocks(log)[k])
  {
    AttemptsBudget(strategy, hasBlocks, script, retryTimes);
    PlacedAreGenerated(Attempts(strategy, hasBlocks, script, retryTimes));
  }

  /** When the supplier or the strategy turns down every attempt, nothing is
      appended and the loop gives up after `retryTimes` attempts (or when
      the answers run out). */
  lemma {:induction false} AllRejectedAppendsNothing(strategy: StrategyKind, hasBlocks: bool, script: seq<Attempt>, retryTimes: nat)
    requires forall i :: 0 <= i < |script| ==> AttemptBlock(script[i]).None?
    ensures var log := Attempts(strategy, hasBlocks, script, retryTimes);
      AppendedBlocks(log) == [] && |log| == if |script| < retryTimes then |script| else retryTimes
    decreases |script|
  {
    if retryTimes > 0 && script != [] {
      assert AttemptBlock(script[0]).None?;
      AllRejectedAppendsNothing(strategy, hasBlocks, script[1..], retryTimes - 1);
      var rest := Attempts(strategy, hasBlocks, script[1..], retryTimes - 1);
      var log := Attempts(strategy, hasBlocks, script, retryTimes);
      assert log == [StepLog(ForcedOrientation(strategy, hasBlocks, script[0].fallbackPick), None)] + rest;
      assert log[1..] == rest;
    }
  }

  /** The blocks hold the values, one for one and in order. */
  ghost predicate Match(blocks: seq<Block>, values: seq<BlockValue>)
    reads blocks
  {
    |blocks| == |values| && forall k :: 0 <= k < |blocks| ==> blocks[k].Value() == values[k]
  }

  lemma MatchConcat(a: seq<Block>, av: seq<BlockValue>, b: seq<Block>, bv: seq<BlockValue>)
    requires Match(a, av) && Match(b, bv)
    ensures Match(a + b, av + bv)
  {
  }

  /** `strategy.logic` on a candidate block, answered by `verdict`: an
      accepting strategy moves the block so that its image starts at the
      chosen point; a rejected block is dropped by the caller. */
  method StrategyLogic(block: Block, verdict: Option<Point>) returns (accepted: bool)
    requires block.Valid()
    modifies block
    ensures block.Valid()
    ensures accepted <==> verdict.Some?
    ensures accepted ==>
      block.Value() == PlacedAt(block.kind, block.innerWidth, block.innerHeight, block.margin, verdict.value)
  {
    accepted := false;
    if verdict.Some? {
      block.LocateByInner(verdict.value.x, verdict.value.y);
      accepted := true;
    }
  }

  class BlockGroup {
    const groupBox: Box
    const width: int
    const height: int
    const bgWidth: nat
    const bgHeight: nat
    const rotateAngleRange: (int, int)
    var blockList: seq<Block>

    ghost predicate Valid()
      reads this, blockList
    {
      forall i :: 0 <= i < |blockList| ==> blockList[i].Valid()
    }

    constructor (bg: Canvas, groupBox: Box, rotateAngleRange: (int, int))
      ensures this.groupBox == groupBox && this.rotateAngleRange == rotateAngleRange
      ensures width == groupBox.x1 - groupBox.x0 && height == groupBox.y1 - groupBox.y0
      ensures bgWidth == bg.width && bgHeight == bg.height
      ensures blockList == [] && Valid()
    {
      this.groupBox := groupBox;
      blockList := [];
      width := groupBox.x1 - groupBox.x0;
      height := groupBox.y1 - groupBox.y0;
      bgWidth := bg.width;
      bgHeight := bg.height;
      this.rotateAngleRange := rotateAngleRange;
    }

    /** `_gen_block`: the orientation to ask the supplier for, and a text
        block with margin 10 at (0, 0) when the supplier produced an image. */
    method GenBlock(strategy: StrategyKind, a: Attempt) returns (block: Block?, orientation: Orientation)
      ensures orientation == ForcedOrientation(strategy, blockList != [], a.fallbackPick)
      ensures block == null <==> a.supplied.None?
      ensures block != null ==> fresh(block) && block.Valid()
      ensures block != null ==>
        var t := a.supplied.value;
        block.Value() == PlacedAt(Text(t.textImg), t.rotatedWidth, t.rotatedHeight, GeneratedMargin, Point(0, 0))
    {
      orientation := ForcedOrientation(strategy, blockList != [], a.fallbackPick);
      block := null;
      if a.supplied.Some? {
        var t := a.supplied.value;
        block := new Block(Text(t.textImg), t.rotatedWidth, t.rotatedHeight, 0, 0, GeneratedMargin);
      }
    }

    /** One turn of `auto_append_block`'s loop: generate a block, submit it
        to the strategy, and append it when accepted. */
    method TryAppend(strategy: StrategyKind, a: Attempt) returns (appended: bool, ghost added: seq<Block>, ghost step: StepLog)
      requires Valid()
      modifies this
      ensures Valid()
      ensures step == StepLog(ForcedOrientation(strategy, old(blockList) != [], a.fallbackPick), AttemptBlock(a))
      ensures appended <==> AttemptBlock(a).Some?
      ensures blockList == old(blockList) + added
      ensures added == [] <==> !appended
      ensures appended ==> |added| == 1 && added[0].Value() == AttemptBlock(a).value
      ensures forall k :: 0 <= k < |added| ==> fresh(added[k])
    {
      var block, orientation := GenBlock(strategy, a);
      step := StepLog(orientation, AttemptBlock(a));
      appended := false;
      added := [];
      if block != null {
        appended := StrategyLogic(block, a.verdict);
        if appended {
          added := [block];
          blockList := blockList + [block];
        }
      }
    }

    /** One turn of the loop, seen from the call: the attempts still to come
        and the blocks appended so far after `script[i]` has been tried. */
    method Turn(strategy: StrategyKind, script: seq<Attempt>, i: nat, retryTimes: nat,
                ghost start: seq<Block>, ghost full: seq<StepLog>, ghost log: seq<StepLog>, ghost added: seq<Block>)
      returns (left: nat, ghost log': seq<StepLog>, ghost more: seq<Block>)
      requires retryTimes > 0 && i < |script|
      requires Valid()
      requires full == log + Attempts(strategy, blockList != [], script[i..], retryTimes)
      requires blockList == start + added
      requires Match(added, AppendedBlocks(log))
      modifies this
      ensures Valid()
      ensures left == if AttemptBlock(script[i]).Some? then retryTimes else retryTimes - 1
      ensures full == log' + Attempts(strategy, blockList != [], script[i + 1..], left)
      ensures blockList == start + (added + more)
      ensures Match(added + more, AppendedBlocks(log'))
      ensures forall k :: 0 <= k < |more| ==> fresh(more[k])
    {
      ghost var hasBlocks := blockList != [];
      var r;
      ghost var step;
      r, more, step := TryAppend(strategy, script[i]);
      LoopStep(strategy, hasBlocks, script, i, retryTimes, log, step);
      assert (blockList != []) == (hasBlocks || AttemptBlock(script[i]).Some?);
      left := if r then retryTimes else retryTimes - 1;
      MatchConcat(added, AppendedBlocks(log), more, if r then [AttemptBlock(script[i]).value] else []);
      log' := log + [step];
    }

    /** `auto_append_block` with the strategy `pick()` returned before the
        loop. Blocks are only ever appended; the call's attempts are those
        of `Attempts` from a budget of 5, and the blocks it appends are the
        ones placed along them, in order. */
    method AutoAppendBlock(strategy: StrategyKind, script: seq<Attempt>) returns (ghost log: seq<StepLog>, ghost added: seq<Block>)
      requires Valid()
      modifies this
      ensures Valid()
      ensures log == Attempts(strategy, old(blockList) != [], script, RetryTimes)
      ensures blockList == old(blockList) + added
      ensures forall k :: 0 <= k < |added| ==> fresh(added[k])
      ensures Match(added, AppendedBlocks(log))
    {
      ghost var start := blockList;
      ghost var full := Attempts(strategy, blockList != [], script, RetryTimes);
      log, added := [], [];
      var retryTimes := RetryTimes;
      var i := 0;
      while retryTimes > 0 && i < |script|
        invariant 0 <= i <= |script|
        invariant full == log + Attempts(strategy, blockList != [], script[i..], retryTimes)
        invariant blockList == start + added
        invariant forall k :: 0 <= k < |added| ==> fresh(added[k])
        invariant Match(added, AppendedBlocks(log))
        invariant Valid()
        decreases |script| - i
      {
        ghost var more;
        retryTimes, log, more := Turn(strategy, script, i, retryTimes, start, full, log, added);
        added := added + more;
        i := i + 1;
      }
      assert Attempts(strategy, blockList != [], script[i..], retryTimes) == [];
    }
  }
}
