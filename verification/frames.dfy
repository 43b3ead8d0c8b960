/** The per-skin rules of `createSkinsSection`: which skins get frames, how many
    copies of each, and the tint of each frame. The DOM nodes, the HTML inside a
    frame and the colour strings are not modelled; a frame is the index of its
    skin in the list and one of five tints. */
module Frames {
  import opened Wrappers
  import opened Tradeups
  import Filtering

  /** The background a frame gets: a tint for every input, and for an output one of
      above/below/break-even against the trade-up cost, or none. */
  datatype Tint = Transparent | InputTint | Above | Below | Even

  datatype Frame = Frame(skin: nat, tint: Tint)

  /** A JavaScript truthy string: present and not empty. */
  predicate Truthy(s: Option<string>) {
    s.Some? && s.value != ""
  }

  /** Skins lacking a name or an image are skipped. */
  predicate Displayable(s: Skin) {
    Truthy(s.name) && Truthy(s.image)
  }

  /** `isOutput ? 1 : (skin.times || 1)`: the bound of the copy loop. A `times` of 0
      or missing is falsy and gives 1; any other number is used as it is. */
  function QuantityBound(s: Skin, isOutput: bool): (q: real)
    ensures q != 0.0
    ensures isOutput ==> q == 1.0
    ensures !isOutput && s.times.Some? && s.times.value != 0.0 ==> q == s.times.value
    ensures !isOutput && (s.times.None? || s.times.value == 0.0) ==> q == 1.0
  {
    if isOutput then 1.0
    else match s.times
      case Some(t) => if t == 0.0 then 1.0 else t
      case None => 1.0
  }

  /** How many times `for (let i = 0; i < bound; i++)` runs. */
  function Iterations(bound: real): (n: nat)
    ensures n as real >= bound
    ensures n > 0 ==> (n - 1) as real < bound
  {
    if bound <= 0.0 then 0
    else if bound.Floor as real == bound then bound.Floor
    else bound.Floor + 1
  }

  /** How many frames a skin gets. */
  function Copies(s: Skin, isOutput: bool): (n: nat)
    ensures !Displayable(s) ==> n == 0
    ensures Displayable(s) && isOutput ==> n == 1
    ensures Displayable(s) && !isOutput && s.times.Some? && s.times.value > 0.0 ==>
      n as real - 1.0 < s.times.value <= n as real
  {
    if Displayable(s) then Iterations(QuantityBound(s, isOutput)) else 0
  }

  /** The tint of every frame of a skin. The comparison against the cost is made only
      for outputs, with a cost that is present and not 0, and a sell price that is present. */
  function SkinTint(s: Skin, isOutput: bool, tradeupCost: Option<real>): (c: Tint)
    ensures c == InputTint <==> !isOutput
    ensures c == Above ==> s.sellPrice.Some? && tradeupCost.Some? && s.sellPrice.value > tradeupCost.value
    ensures c == Below ==> s.sellPrice.Some? && tradeupCost.Some? && s.sellPrice.value < tradeupCost.value
    ensures c == Even ==> s.sellPrice.Some? && tradeupCost.Some? && s.sellPrice.value == tradeupCost.value
    ensures c == Transparent <==> isOutput && (tradeupCost.None? || tradeupCost.value == 0.0 || s.sellPrice.None?)
  {
    if isOutput && tradeupCost.Some? && tradeupCost.value != 0.0 && s.sellPrice.Some? then
      if s.sellPrice.value > tradeupCost.value then Above
      else if s.sellPrice.value < tradeupCost.value then Below
      else Even
    else if !isOutput then InputTint
    else Transparent
  }

  /** The frames of the skins of a list, in order. */
  function FramesOf(skins: seq<Skin>, isOutput: bool, tradeupCost: Option<real>): seq<Frame> {
    if skins == [] then []
    else
      var k := |skins| - 1;
      FramesOf(skins[..k], isOutput, tradeupCost) +
      seq(Copies(skins[k], isOutput), _ => Frame(k, SkinTint(skins[k], isOutput, tradeupCost)))
  }

  /** A missing skin list gives the "no skin data" placeholder and no frames. */
  function SectionFrames(skins: Option<seq<Skin>>, isOutput: bool, tradeupCost: Option<real>): seq<Frame> {
    match skins
    case None => []
    case Some(s) => FramesOf(s, isOutput, tradeupCost)
  }

  /** The two nested loops of `createSkinsSection`. */
  method CreateSkinsSection(skins: Option<seq<Skin>>, isOutput: bool, tradeupCost: Option<real>)
    returns (frames: seq<Frame>)
    ensures frames == SectionFrames(skins, isOutput, tradeupCost)
  {
    frames := [];
    if skins.None? {
      return;
    }
    var list := skins.value;
    var k := 0;
    while k < |list|
      invariant 0 <= k <= |list|
      invariant frames == FramesOf(list[..k], isOutput, tradeupCost)
    {
      var skin := list[k];
      assert list[..k + 1][..k] == list[..k];
      if Displayable(skin) {
        var quantity := QuantityBound(skin, isOutput);
        var tint := SkinTint(skin, isOutput, tradeupCost);
        ghost var n := Iterations(quantity);
        var i := 0;
        while (i as real) < quantity
          invariant 0 <= i <= n
          invariant frames == FramesOf(list[..k], isOutput, tradeupCost) + seq(i, _ => Frame(k, tint))
          decreases n - i
        {
          frames := frames + [Frame(k, tint)];
          i := i + 1;
        }
        assert i == Copies(skin, isOutput);
      } else {
        assert frames == FramesOf(list[..k], isOutput, tradeupCost) + [];
      }
      k := k + 1;
    }
    assert list[..k] == list;
  }

  /** Every frame belongs to a displayable skin of the list and carries that skin's tint. */
  lemma {:induction false} FrameOrigin(skins: seq<Skin>, isOutput: bool, tradeupCost: Option<real>, j: int)
    requires 0 <= j < |FramesOf(skins, isOutput, tradeupCost)|
    ensures
      var f := FramesOf(skins, isOutput, tradeupCost)[j];
      f.skin < |skins| && Displayable(skins[f.skin]) && f.tint == SkinTint(skins[f.skin], isOutput, tradeupCost)
  {
    var k := |skins| - 1;
    var front := FramesOf(skins[..k], isOutput, tradeupCost);
    if j < |front| {
      FrameOrigin(skins[..k], isOutput, tradeupCost, j);
    }
  }

  /** An output frame with a non-zero cost and a sell price is green above the cost,
      red below it and neutral at it; without either it is left transparent. */
  lemma OutputFrameTint(skins: seq<Skin>, tradeupCost: Option<real>, j: int)
    requires 0 <= j < |FramesOf(skins, true, tradeupCost)|
    ensures
      var f := FramesOf(skins, true, tradeupCost)[j];
      f.skin < |skins| &&
      var p := skins[f.skin].sellPrice;
      if tradeupCost.Some? && tradeupCost.value != 0.0 && p.Some? then
        && (f.tint == Above <==> p.value > tradeupCost.value)
        && (f.tint == Below <==> p.value < tradeupCost.value)
        && (f.tint == Even <==> p.value == tradeupCost.value)
      else f.tint == Transparent
  {
    FrameOrigin(skins, true, tradeupCost, j);
  }

  /** The number of skins that have both a name and an image. */
  function DisplayableCount(skins: seq<Skin>): nat {
    if skins == [] then 0
    else DisplayableCount(skins[..|skins| - 1]) + if Displayable(skins[|skins| - 1]) then 1 else 0
  }

  /** Each displayable output skin gets exactly one frame. */
  lemma {:induction false} OutputFramesOnePerSkin(skins: seq<Skin>, tradeupCost: Option<real>)
    ensures |FramesOf(skins, true, tradeupCost)| == DisplayableCount(skins)
  {
    if skins != [] {
      OutputFramesOnePerSkin(skins[..|skins| - 1], tradeupCost);
    }
  }

  /** A displayable input skin gets one frame when `times` is missing or 0, `t` frames
      for a whole positive `t`, the next whole number of frames for a fractional positive
      `t`, and none for a negative `t`. */
  lemma InputCopies(s: Skin)
    requires Displayable(s)
    ensures s.times.None? || s.times.value == 0.0 ==> Copies(s, false) == 1
    ensures s.times.Some? && s.times.value < 0.0 ==> Copies(s, false) == 0
    ensures s.times.Some? && s.times.value > 0.0 ==>
      Copies(s, false) as real - 1.0 < s.times.value <= Copies(s, false) as real
  {
  }

  /** For a missing, zero or whole positive `times`, the number of frames of an input skin is
      the quantity it carries in the average float. */
  lemma CopiesMatchQuantity(s: Skin)
    requires Displayable(s)
    requires s.times.None? || s.times.value == 0.0 || (s.times.value >= 1.0 && s.times.value == s.times.value.Floor as real)
    ensures Copies(s, false) == Filtering.Quantity(s)
  {
  }

  /** For a fractional `times` the two rules differ: 2.5 gives three frames but counts
      twice in the average float. */
  lemma FractionalTimesDiffer()
    ensures
      var s := Skin(Some("AK-47"), Some("ak.png"), Some(0.2), Some(2.5), None);
      Copies(s, false) == 3 && Filtering.Quantity(s) == 2
  {
  }

  /** For a negative whole `times` they differ too: -2 gives no frame (the copy loop
      never runs) but counts once in the average float. */
  lemma NegativeTimesDiffer()
    ensures
      var s := Skin(Some("AK-47"), Some("ak.png"), Some(0.2), Some(-2.0), None);
      Copies(s, false) == 0 && Filtering.Quantity(s) == 1
  {
  }
}
