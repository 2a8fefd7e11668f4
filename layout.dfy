/** Layout: the canvas, one block group per declared region, and the
    metadata that `dump` writes for the placed blocks. File writing, image
    encoding and the SHA-1 digest are not modelled: `dump` receives the
    hex digest of the canvas bytes as `name`. */
module Layouts {
  import opened Geometry
  import opened Blocks
  import opened BlockGroups

  /** One entry of `collect_block_fragment` without its image crop. */
  datatype FragmentInfo = FragmentInfo(box: Box, data: Option<string>, orientation: string, typeName: string)

  /** One entry of the `fragment` list that `dump` returns and writes as JSON. */
  datatype DumpedFragment = DumpedFragment(
    box: Box, data: Option<string>, orientation: string, typeName: string, fragmentName: string)

  /** The dictionary `dump` returns. */
  datatype DumpResult = DumpResult(picName: string, width: nat, height: nat, fragment: seq<DumpedFragment>)

  /** The blocks of the given groups, group after group, each group's in its own order. */
  function Concat(groups: seq<BlockGroup>): seq<Block>
    reads groups
  {
    if groups == [] then []
    else Concat(groups[..|groups| - 1]) + groups[|groups| - 1].blockList
  }

  /** The record `collect_block_fragment` makes of one block. */
  function Fragment(b: Block): (f: FragmentInfo)
    reads b
    ensures f.box == b.innerBox
    ensures f.data == b.GetData() && f.typeName == b.TypeName()
    ensures f.orientation == "horizontal" <==> b.GetOrientation() == Horizontal
    ensures f.orientation == "vertical" <==> b.GetOrientation() == Vertical
  {
    FragmentInfo(b.innerBox, b.GetData(), if b.GetOrientation() == Horizontal then "horizontal" else "vertical", b.TypeName())
  }

  /** The JSON entry `dump` makes of a collected fragment: the record without
      its image, with the fragment's file name added. */
  function Dumped(f: FragmentInfo, fragmentName: string): (d: DumpedFragment)
    ensures d.box == f.box && d.data == f.data && d.orientation == f.orientation && d.typeName == f.typeName
    ensures d.fragmentName == fragmentName
  {
    DumpedFragment(f.box, f.data, f.orientation, f.typeName, fragmentName)
  }

  /** `str(n)` for a natural number: its decimal digits, without leading zeros. */
  function DecimalString(n: nat): (s: string)
    ensures |s| >= 1
    ensures forall i :: 0 <= i < |s| ==> '0' <= s[i] <= '9'
    ensures |s| > 1 ==> s[0] != '0'
    decreases n
  {
    if n < 10 then [DigitChar(n)] else DecimalString(n / 10) + [DigitChar(n % 10)]
  }

  function DigitChar(d: nat): (c: char)
    requires d < 10
    ensures '0' <= c <= '9'
  {
    ('0' as int + d) as char
  }

  /** The number a string of decimal digits denotes. */
  function DecimalValue(s: string): nat
    requires forall i :: 0 <= i < |s| ==> '0' <= s[i] <= '9'
  {
    if s == [] then 0
    else 10 * DecimalValue(s[..|s| - 1]) + (s[|s| - 1] as int - '0' as int)
  }

  /** Reading back the decimal digits of `n` gives `n`. */
  lemma {:induction false} DecimalRoundTrip(n: nat)
    ensures DecimalValue(DecimalString(n)) == n
    decreases n
  {
    var s := DecimalString(n);
    if n >= 10 {
      DecimalRoundTrip(n / 10);
      assert s[..|s| - 1] == DecimalString(n / 10);
    }
  }

  /** Different indices have different decimal strings. */
  lemma DecimalStringInjective(m: nat, n: nat)
    ensures DecimalString(m) == DecimalString(n) ==> m == n
  {
    DecimalRoundTrip(m);
    DecimalRoundTrip(n);
  }

  /** The picture's file name: the digest between the `pic_` prefix and the `.jpg` extension. */
  function PicName(name: string): (n: string)
    ensures |n| == |name| + 8
    ensures n[..4] == "pic_" && n[4..|n| - 4] == name && n[|n| - 4..] == ".jpg"
  {
    "pic_" + name + ".jpg"
  }

  /** A fragment's file name: the digest and then the decimal index between
      the `fragment_` prefix and the `.jpg` extension. */
  function FragmentName(name: string, index: nat): (n: string)
    ensures |n| == 9 + |name| + |DecimalString(index)| + 4
    ensures n[..9] == "fragment_" && n[9..9 + |name|] == name
    ensures n[9 + |name|..|n| - 4] == DecimalString(index) && n[|n| - 4..] == ".jpg"
  {
    "fragment_" + name + DecimalString(index) + ".jpg"
  }

  /** Fragment file names never collide: two names built from digests of
      the same length are equal only for the same digest and index. */
  lemma FragmentNameInjective(name1: string, i: nat, name2: string, j: nat)
    requires |name1| == |name2|
    ensures FragmentName(name1, i) == FragmentName(name2, j) ==> name1 == name2 && i == j
  {
    if FragmentName(name1, i) == FragmentName(name2, j) {
      DecimalStringInjective(i, j);
    }
  }

  /** No group holds a block exactly when the concatenation is empty. */
  lemma {:induction false} ConcatEmpty(groups: seq<BlockGroup>)
    ensures Concat(groups) == [] <==> forall i :: 0 <= i < |groups| ==> groups[i].blockList == []
    decreases |groups|
  {
    if groups != [] {
      var init := groups[..|groups| - 1];
      ConcatEmpty(init);
      assert forall i :: 0 <= i < |init| ==> init[i] == groups[i];
    }
  }

  /** A block is collected exactly when some group holds it. */
  lemma {:induction false} ConcatMembers(groups: seq<BlockGroup>, b: Block)
    ensures b in Concat(groups) <==> exists i :: 0 <= i < |groups| && b in groups[i].blockList
    decreases |groups|
  {
    if groups != [] {
      var init := groups[..|groups| - 1];
      ConcatMembers(init, b);
      assert forall i :: 0 <= i < |init| ==> init[i] == groups[i];
      if b in groups[|groups| - 1].blockList {
        assert b in Concat(groups);
      }
    }
  }

  /** `group` now holds `before` followed by the blocks placed along `log`,
      the attempts `auto_append_block` makes with `strategy` and `script`. */
  ghost predicate GrewBy(group: BlockGroup, before: seq<Block>, strategy: StrategyKind, script: seq<Attempt>, log: seq<StepLog>)
    reads group, group.blockList
  {
    log == Attempts(strategy, before != [], script, RetryTimes)
    && |before| <= |group.blockList| && group.blockList[..|before|] == before
    && Match(group.blockList[|before|..], AppendedBlocks(log))
  }

  /** One group's turn in `gen`: `auto_append_block` on it, seen as the
      slice of its list past the blocks it held before. */
  method Grow(group: BlockGroup, strategy: StrategyKind, script: seq<Attempt>) returns (ghost log: seq<StepLog>)
    requires group.Valid()
    modifies group
    ensures group.Valid()
    ensures GrewBy(group, old(group.blockList), strategy, script, log)
    ensures forall k :: |old(group.blockList)| <= k < |group.blockList| ==> fresh(group.blockList[k])
  {
    ghost var before := group.blockList;
    ghost var added;
    log, added := group.AutoAppendBlock(strategy, script);
    assert group.blockList[..|before|] == before && group.blockList[|before|..] == added;
    assert forall k :: |before| <= k < |group.blockList| ==> group.blockList[k] == added[k - |before|];
  }

  class Layout {
    const bgImg: Canvas
    const outPutDir: string
    const groupBoxList: seq<Box>
    const blockGroupList: seq<BlockGroup>

    /** `Layout(bg_img, out_put_dir, rotate_angle_range, group_box_list)`:
        one new, empty group per declared box, in the same order. */
    constructor (bgImg: Canvas, outPutDir: string, rotateAngleRange: (int, int), groupBoxList: seq<Box>)
      ensures this.bgImg == bgImg && this.outPutDir == outPutDir && this.groupBoxList == groupBoxList
      ensures |blockGroupList| == |groupBoxList|
      ensures forall i :: 0 <= i < |blockGroupList| ==>
        fresh(blockGroupList[i]) && blockGroupList[i].Valid() && blockGroupList[i].blockList == []
        && blockGroupList[i].groupBox == groupBoxList[i]
        && blockGroupList[i].width == groupBoxList[i].x1 - groupBoxList[i].x0
        && blockGroupList[i].height == groupBoxList[i].y1 - groupBoxList[i].y0
        && blockGroupList[i].rotateAngleRange == rotateAngleRange
        && blockGroupList[i].bgWidth == bgImg.width && blockGroupList[i].bgHeight == bgImg.height
      ensures forall i, j :: 0 <= i < j < |blockGroupList| ==> blockGroupList[i] != blockGroupList[j]
      ensures Valid()
    {
      this.bgImg := bgImg;
      this.outPutDir := outPutDir;
      this.groupBoxList := groupBoxList;
      var groups: seq<BlockGroup> := [];
      for k := 0 to |groupBoxList|
        invariant |groups| == k
        invariant forall i :: 0 <= i < k ==>
          fresh(groups[i]) && groups[i].Valid() && groups[i].blockList == []
          && groups[i].groupBox == groupBoxList[i]
          && groups[i].width == groupBoxList[i].x1 - groupBoxList[i].x0
          && groups[i].height == groupBoxList[i].y1 - groupBoxList[i].y0
          && groups[i].rotateAngleRange == rotateAngleRange
          && groups[i].bgWidth == bgImg.width && groups[i].bgHeight == bgImg.height
        invariant forall i, j :: 0 <= i < j < k ==> groups[i] != groups[j]
      {
        var group := new BlockGroup(bgImg, groupBoxList[k], rotateAngleRange);
        groups := groups + [group];
      }
      blockGroupList := groups;
    }

    /** The groups are distinct objects, each holding located blocks. */
    ghost predicate Valid()
      reads this, blockGroupList
      reads set i, k | 0 <= i < |blockGroupList| && 0 <= k < |blockGroupList[i].blockList| :: blockGroupList[i].blockList[k]
    {
      (forall i, j :: 0 <= i < j < |blockGroupList| ==> blockGroupList[i] != blockGroupList[j])
      && forall i :: 0 <= i < |blockGroupList| ==> blockGroupList[i].Valid()
    }

    /** `gen` without the final render: `auto_append_block` once on every
        group, in order, with `picks[i]` the strategy picked for group i and
        `scripts[i]` the answers its attempts get. Each group grows by the
        blocks placed along its own attempts and by nothing else. */
    method Gen(picks: seq<StrategyKind>, scripts: seq<seq<Attempt>>) returns (ghost logs: seq<seq<StepLog>>)
      requires Valid()
      requires |picks| == |blockGroupList| && |scripts| == |blockGroupList|
      modifies blockGroupList
      ensures Valid()
      ensures |logs| == |blockGroupList|
      ensures forall i :: 0 <= i < |blockGroupList| ==> GrewBy(blockGroupList[i], old(blockGroupList[i].blockList), picks[i], scripts[i], logs[i])
      ensures forall i, k :: 0 <= i < |blockGroupList| && |old(blockGroupList[i].blockList)| <= k < |blockGroupList[i].blockList| ==>
        fresh(blockGroupList[i].blockList[k])
    {
      logs := [];
      for i := 0 to |blockGroupList|
        invariant |logs| == i
        invariant forall j :: 0 <= j < |blockGroupList| ==> blockGroupList[j].Valid()
        invariant forall j :: 0 <= j < i ==> GrewBy(blockGroupList[j], old(blockGroupList[j].blockList), picks[j], scripts[j], logs[j])
        invariant forall j :: i <= j < |blockGroupList| ==> blockGroupList[j].blockList == old(blockGroupList[j].blockList)
        invariant forall j, k :: 0 <= j < i && |old(blockGroupList[j].blockList)| <= k < |blockGroupList[j].blockList| ==>
          fresh(blockGroupList[j].blockList[k])
      {
        var log := Grow(blockGroupList[i], picks[i], scripts[i]);
        logs := logs + [log];
      }
    }

    /** `get_all_block_list`: every group's blocks, group after group. */
    method GetAllBlockList() returns (all: seq<Block>)
      ensures all == Concat(blockGroupList)
    {
      all := [];
      for i := 0 to |blockGroupList|
        invariant all == Concat(blockGroupList[..i])
      {
        all := all + blockGroupList[i].blockList;
        assert blockGroupList[..i + 1][..i] == blockGroupList[..i];
      }
      assert blockGroupList[..|blockGroupList|] == blockGroupList;
    }

    /** `is_empty`: no group holds a block, that is, no block at all is placed. */
    method IsEmpty() returns (empty: bool)
      ensures empty <==> forall i :: 0 <= i < |blockGroupList| ==> blockGroupList[i].blockList == []
      ensures empty <==> Concat(blockGroupList) == []
    {
      ConcatEmpty(blockGroupList);
      for i := 0 to |blockGroupList|
        invariant forall j :: 0 <= j < i ==> blockGroupList[j].blockList == []
      {
        if blockGroupList[i].blockList != [] {
          return false;
        }
      }
      return true;
    }

    /** `collect_block_fragment` without the image crops: one record per
        placed block, in `get_all_block_list` order. */
    method CollectBlockFragment() returns (fragments: seq<FragmentInfo>)
      ensures |fragments| == |Concat(blockGroupList)|
      ensures forall i :: 0 <= i < |fragments| ==> fragments[i] == Fragment(Concat(blockGroupList)[i])
    {
      var all := GetAllBlockList();
      fragments := [];
      for i := 0 to |all|
        invariant |fragments| == i
        invariant forall j :: 0 <= j < i ==> fragments[j] == Fragment(all[j])
      {
        fragments := fragments + [Fragment(all[i])];
      }
    }

    /** The result dictionary of `dump` for a canvas whose bytes hash to
        `name`: the picture's name, the canvas size, and one entry per placed
        block, the i-th named after its index; no two entries share a name. */
    method Dump(name: string) returns (result: DumpResult)
      ensures result.picName == PicName(name)
      ensures result.width == bgImg.width && result.height == bgImg.height
      ensures |result.fragment| == |Concat(blockGroupList)|
      ensures forall i :: 0 <= i < |result.fragment| ==>
        result.fragment[i] == Dumped(Fragment(Concat(blockGroupList)[i]), FragmentName(name, i))
      ensures forall i, j :: 0 <= i < j < |result.fragment| ==>
        result.fragment[i].fragmentName != result.fragment[j].fragmentName
    {
      var collected := CollectBlockFragment();
      var fragment: seq<DumpedFragment> := [];
      for index := 0 to |collected|
        invariant |fragment| == index
        invariant forall i :: 0 <= i < index ==> fragment[i] == Dumped(collected[i], FragmentName(name, i))
      {
        fragment := fragment + [Dumped(collected[index], FragmentName(name, index))];
      }
      result := DumpResult(PicName(name), bgImg.width, bgImg.height, fragment);
      forall i, j | 0 <= i < j < |fragment|
        ensures fragment[i].fragmentName != fragment[j].fragmentName
      {
        FragmentNameInjective(name, i, name, j);
      }
    }
  }
}
