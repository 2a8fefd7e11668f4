# TextGenerator block placement core, in Dafny

This project models the block placement and layout engine of TextGenerator. TextGenerator pastes rendered text fragments onto background images to produce labelled training data for text detection.

The model covers `core/layout/__init__.py`:

- **Blocks** (`blocks.dfy`, module `Blocks`).
  - A `Block` is a class holding the size of its rotated image, a margin, and an inner and an outer box, which `LocateByInner` and `LocateByOuter` overwrite.
  - A `TextBlock` is the same class with kind `Text`. The kind carries the text and the orientation tag it was rendered with.
  - Box arithmetic lives in `geometry.dfy` (module `Geometry`).
- **Block groups** (`block_group.dfy`, module `BlockGroups`).
  - A `BlockGroup` owns one region and an ordered `blockList`.
  - `AutoAppendBlock` is the retry loop of `auto_append_block`. It is proved against the pure trace function `Attempts`, which gives the attempts the loop makes, what each one requested and what each one appended.
  - `ForcedOrientation` is the strategy-to-orientation dispatch of `_gen_block`.
- **Layout** (`layout.dfy`, module `Layouts`).
  - The constructor builds one group per declared box.
  - `Gen` runs the retry loop on each group in turn.
  - `GetAllBlockList`, `IsEmpty` and `CollectBlockFragment` are modelled.
  - `Dump` models the metadata that `dump` assembles: picture name, canvas size, and one named entry per block.

The collaborators the loop consults are not part of this model:

- the strategy chosen by `strategy_controller.pick()` and its `logic`;
- the text-image supplier;
- `Random`.

They enter the model as parameters:

- The picked strategy is a `StrategyKind`. It is picked once per call, before the loop, as at line 115.
- Each attempt of the loop reads one `Attempt` record. The record holds:
  - the orientation the random fallback would draw;
  - what the supplier returned: nothing, or a text with the size of its rotated image;
  - what `logic` decided: reject, or accept with the image placed at a point.

The source differs from its own description in two places, and the model follows the code:

- The loop does not end at the first success. `retry_times` only drops on a failed attempt (lines 118-133), so one call can append any number of blocks and ends after the fifth failure.
- The comment at line 116 speaks of three tries, but the budget is 5 (line 117).

## Model

| member | source | states |
|---|---|---|
| Geometry.BoxAt | core/layout/__init__.py:49-50 | the inner box starts at the given corner and is exactly the image's width and height |
| Geometry.Expand | core/layout/__init__.py:51-54 | the outer box is the inner box grown by the margin on all four sides: 2*margin wider and higher, its corner offset by margin, and it covers the inner box when the margin is not negative |
| Geometry.OuterCornerRoundTrip | core/layout/__init__.py:56-59 | locating by the outer corner of an inner placement gives back the same inner and outer boxes |
| Blocks.PlacedAt | core/layout/__init__.py:49-54 | a block placed at an inner corner keeps the given size, margin and kind, and is located: inner box at that corner with the image's size, outer box at the corner minus the margin |
| Blocks.Block.constructor | core/layout/__init__.py:22-38 | outer width and height are the inner ones plus 2*margin, and the block is located with its image at (inner_x, inner_y) |
| Blocks.Block.LocateByInner | core/layout/__init__.py:49-54 | the new inner box is (x, y, x+w, y+h) and the new outer box is it grown by the margin |
| Blocks.Block.LocateByOuter | core/layout/__init__.py:56-59 | the outer box starts at (x, y) with the outer size, the inner box at (x+margin, y+margin), and the block stays consistent |
| Blocks.LocateByOwnOuterCorner | core/layout/__init__.py:56-59 | relocating a block by its own outer corner leaves both boxes unchanged |
| Blocks.Block.GetOrientation | core/layout/__init__.py:43-47 | a plain block is horizontal iff strictly wider than high (a square one is vertical); a text block reports its stored tag whatever its box, as the override at lines 88-89 does |
| Blocks.Block.GetData | core/layout/__init__.py:85-86 | there is data iff the block is a text block, and then it is the text |
| Blocks.Block.TypeName | core/layout/__init__.py:273 | the class name is "TextBlock" iff the block is a text block and "Block" iff it is plain |
| BlockGroups.ForcedOrientation | core/layout/__init__.py:143-158 | Horizontal asks for vertical text, Vertical for horizontal, HorizontalFlow for horizontal, VerticalFlow for vertical, Customization1 for vertical iff the group is empty, any other strategy for the random pick |
| BlockGroups.AttemptBlock | core/layout/__init__.py:160-166 | an attempt yields a block iff the supplier returned a text image and the strategy accepted it; that block is a text block of the rendered size with margin 10, placed where the strategy put it |
| BlockGroups.StrategyLogic | core/layout/__init__.py:121-124 | the block is accepted iff the strategy's verdict is an acceptance, and an accepted block has its image at the chosen point with its outer box grown by its margin |
| BlockGroups.BlockGroup.constructor | core/layout/__init__.py:93-104 | a new group has an empty block list, width x1-x0, height y1-y0, the canvas size and the given box and angle range |
| BlockGroups.BlockGroup.GenBlock | core/layout/__init__.py:136-166 | the requested orientation is the forced orientation for the strategy and the group's emptiness; a block exists iff the supplier returned an image, and it is a new text block with margin 10 |
| BlockGroups.BlockGroup.TryAppend | core/layout/__init__.py:119-133 | one turn of the loop: the list grows by exactly one new block iff the attempt places one, and that block has the placed value; otherwise the list is unchanged |
| BlockGroups.BlockGroup.Turn | core/layout/__init__.py:119-133 | one turn of the loop seen from the call: the budget drops by one exactly on a failure, the attempts still to come are those of `Attempts` from the next answer, and the appended blocks still match the placed values and are new |
| BlockGroups.BlockGroup.AutoAppendBlock | core/layout/__init__.py:109-134 | the call only appends to the old list; the attempts it makes are those of `Attempts` from a budget of 5; the blocks appended are new objects and are the ones placed along those attempts, in order |
| BlockGroups.Attempts | core/layout/__init__.py:117-133 | the trace of the retry loop: it is empty exactly when the budget is spent or no answer is left; AttemptsBudget, PlacedPlusFailures, AttemptsRequests and AllRejectedAppendsNothing give it its meaning |
| BlockGroups.AttemptsBudget | core/layout/__init__.py:117-133 | each attempt's outcome depends only on its own answers; failures never exceed the budget; when the answers do not run out, the loop ends after exactly 5 failures, the last attempt being one of them; successes do not end it |
| BlockGroups.PlacedPlusFailures | core/layout/__init__.py:120-133 | every attempt either appends one block or spends one unit of the retry budget |
| BlockGroups.AttemptsRequests | core/layout/__init__.py:118-155 | each attempt requests the forced orientation given whether the group held a block at that moment, counting blocks appended earlier in the same call |
| BlockGroups.CustomizationLabelThenValues | core/layout/__init__.py:151-155 | under Customization1, starting from an empty group, an attempt asks for vertical text iff no earlier attempt of the call placed a block |
| BlockGroups.AppendedAreGenerated | core/layout/__init__.py:165 | every block a call appends is a located text block with margin 10 |
| BlockGroups.AllRejectedAppendsNothing | core/layout/__init__.py:118-134 | when every attempt fails, nothing is appended and the loop gives up after 5 attempts, or fewer if the answers run out |
| Layouts.Layout.constructor | core/layout/__init__.py:210-226 | one new, empty, distinct group per declared box, in the same order, with width x1-x0 and height y1-y0, sharing the layout's canvas size and angle range |
| Layouts.Grow | core/layout/__init__.py:245-247 | one group's turn in `gen`: its old list stays a prefix and is followed by new blocks, exactly the ones placed along its own attempts |
| Layouts.Layout.Gen | core/layout/__init__.py:240-247 | every group, in order, grows by new blocks, exactly those placed along its own attempts; its old list stays a prefix; no other group's list is touched |
| Layouts.Layout.GetAllBlockList | core/layout/__init__.py:228-237 | the result is the groups' block lists concatenated in group order |
| Layouts.Concat | core/layout/__init__.py:233-237 | the groups' block lists joined in group order, the reference for `get_all_block_list`; ConcatMembers and ConcatEmpty give it its meaning |
| Layouts.ConcatMembers | core/layout/__init__.py:228-237 | a block is in the concatenation iff some group holds it |
| Layouts.ConcatEmpty | core/layout/__init__.py:250-258 | the concatenation is empty iff every group's list is empty |
| Layouts.Layout.IsEmpty | core/layout/__init__.py:250-258 | the result is true iff every group's list is empty, that is, iff no block is placed at all |
| Layouts.Fragment | core/layout/__init__.py:264-273 | a fragment record's box is the inner box, its data and type name are the block's, and its orientation is "horizontal" iff the block's orientation is horizontal, "vertical" iff vertical |
| Layouts.Layout.CollectBlockFragment | core/layout/__init__.py:261-276 | one record per placed block, in `get_all_block_list` order, each the fragment record of its block |
| Layouts.Dumped | core/layout/__init__.py:309-310 | a dumped entry keeps the fragment's box, data, orientation and type, drops the image, and carries the given file name |
| Layouts.PicName | core/layout/__init__.py:294 | the picture's name is the digest between the `pic_` prefix and the `.jpg` extension |
| Layouts.FragmentName | core/layout/__init__.py:305 | a fragment's name is the digest and then `str(index)` between the `fragment_` prefix and the `.jpg` extension |
| Layouts.DecimalString | core/layout/__init__.py:305 | `str(index)` is a nonempty string of decimal digits without a leading zero |
| Layouts.DecimalRoundTrip | core/layout/__init__.py:305 | reading the digits of `str(n)` back gives n |
| Layouts.FragmentNameInjective | core/layout/__init__.py:305 | two fragment names built from equal-length digests coincide only for the same digest and index |
| Layouts.Layout.Dump | core/layout/__init__.py:292-312 | the picture is named `PicName(name)`; width and height are the canvas's; there is one entry per placed block, the i-th being its fragment record named `FragmentName(name, i)`; no two entries share a name |

## Left out

- Raster work through PIL is not modelled: `rotate(expand=True)`, `paste`, `split`, `crop`, `ImageDraw`, `get_img`, `get_alpha_mask`, `crop_self`, `render`, `preview` and `show`. The rotated image's width and height are inputs, and the `img` entry of a fragment record is dropped.
- The rotation angle is not modelled. Drawing it from `rotate_angle_range` (line 164) is randomness, and turning it into a size needs floating-point trigonometry.
- `strategy_controller.pick` and `Strategy.logic` are not part of this model. Their bounds and no-overlap guarantees cannot be stated here; `logic` is an answer in each `Attempt`.
- `text_img_provider.auto_gen_next_text_img` and `Random.random_choice_list` are not part of this model. They are the answers in each `Attempt`, and the width, height and canvas handed to the supplier are not modelled.
- BlockGroups.BlockGroup.AutoAppendBlock: the answers are a finite sequence that also serves as fuel. The model stops when they run out, while the source keeps asking until the fifth failure, which it reaches only if the collaborators eventually fail.
- Layouts.Layout.Gen: the final `self.render()` (line 248) is raster work and is not modelled.
- Layouts.Layout.Dump: `os.makedirs`, the file writes, `json.dump` and the JSON file name are I/O and are not modelled. The SHA-1 hex digest of the canvas bytes is the parameter `name`.
- Logging (`log.info`), the `count_time` decorator, `layout_factory`, the `__main__` block and the text provider are not modelled. None of them affects the placement logic.
- The `inner_size` and `outer_size` tuples are not kept as fields. They only repeat the widths and heights.
- The shared mutable default `group_box_list=[]` of the Layout constructor is not modelled. The model's constructor always takes the list.
