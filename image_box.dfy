/** The full-screen image viewer: a list of image URLs, a current index held as
    component state, circular stepping with the arrow keys or two click zones,
    a render guard and a 1-based position label. */
module ImageViewer {
  import opened JsRuntime

  /** A navigation step: towards the previous or the next image. */
  datatype Move = Back | Forward

  /** The keys the viewer listens to. */
  datatype Key = Up | Left | Down | Right

  /** The position chip: the current image's 1-based number and the count. */
  datatype Label = Label(position: int, total: nat)

  /** What the viewer draws when its guard lets it draw. */
  datatype Frame = Frame(image: string, zones: seq<Move>, chip: Label)

  /** `index` names an element of a list of `length` images. */
  predicate InRange(index: Num, length: nat) {
    index.Int? && 0 <= index.v < length
  }

  /** `onNext`: `(index + 1) % items.length`. Inside the list it advances by one
      and wraps from the last image to the first; an empty list turns the index
      into NaN, and NaN stays NaN. */
  function Next(index: Num, length: nat): (r: Num)
    ensures length == 0 || index == NaN ==> r == NaN
    ensures InRange(index, length) ==>
      InRange(r, length) && r.v == if index.v == length - 1 then 0 else index.v + 1
  {
    match index
    case NaN => NaN
    case Int(i) => Rem(i + 1, length)
  }

  /** `onPrev`: `(index + items.length - 1) % items.length`. Inside the list it
      goes back by one and wraps from the first image to the last. */
  function Prev(index: Num, length: nat): (r: Num)
    ensures length == 0 || index == NaN ==> r == NaN
    ensures InRange(index, length) ==>
      InRange(r, length) && r.v == if index.v == 0 then length - 1 else index.v - 1
  {
    match index
    case NaN => NaN
    case Int(i) => Rem(i + length - 1, length)
  }

  function Step(index: Num, length: nat, m: Move): Num {
    match m
    case Back => Prev(index, length)
    case Forward => Next(index, length)
  }

  /** Up and left go back, down and right go forward. */
  function KeyMove(k: Key): (m: Move)
    ensures m == Back <==> k in {Up, Left}
  {
    match k
    case Up => Back
    case Left => Back
    case Down => Forward
    case Right => Forward
  }

  /** The click zones drawn over the image: a "previous" and a "next" zone,
      and none at all on a mobile device. */
  function Zones(mobile: bool): (zones: seq<Move>)
    ensures mobile <==> zones == []
    ensures !mobile ==> zones[0] == Back && zones[|zones| - 1] == Forward
  {
    if mobile then [] else [Back, Forward]
  }

  /** `items[index]` as JavaScript evaluates it: undefined unless the index is
      an integer inside the list. */
  function Lookup(items: seq<string>, index: Num): Option<string> {
    if InRange(index, |items|) then Some(items[index.v]) else None
  }

  /** The render guard `!props.items[index]`: the viewer draws only when the
      entry at the index exists and is a non-empty (truthy) string, so an empty
      list, an index outside the list, NaN and an empty URL all draw nothing. */
  function Shows(items: seq<string>, index: Num): (shown: bool)
    ensures shown <==> InRange(index, |items|) && items[index.v] != ""
    ensures shown ==> |items| >= 1
  {
    match Lookup(items, index)
    case None => false
    case Some(url) => url != ""
  }

  /** The label `${index + 1} / ${items.length}`: 1-based, so it lies between 1
      and the number of images whenever it is drawn. */
  function PositionLabel(items: seq<string>, index: Num): (chip: Label)
    requires Shows(items, index)
    ensures 1 <= chip.position <= chip.total && chip.total == |items|
    ensures chip.position - 1 == index.v
  {
    Label(index.v + 1, |items|)
  }

  lemma PrevUndoesNext(index: Num, length: nat)
    requires InRange(index, length)
    ensures Prev(Next(index, length), length) == index
  {
  }

  lemma NextUndoesPrev(index: Num, length: nat)
    requires InRange(index, length)
    ensures Next(Prev(index, length), length) == index
  {
  }

  /** The index after a sequence of steps, applied left to right. */
  function Run(index: Num, length: nat, moves: seq<Move>): Num
    decreases |moves|
  {
    if moves == [] then index
    else Run(Step(index, length, moves[0]), length, moves[1..])
  }

  /** Any sequence of key presses and clicks keeps a valid index valid. */
  lemma {:induction false} RunStaysInRange(index: Num, length: nat, moves: seq<Move>)
    requires InRange(index, length)
    ensures InRange(Run(index, length, moves), length)
    decreases |moves|
  {
    if moves != [] {
      RunStaysInRange(Step(index, length, moves[0]), length, moves[1..]);
    }
  }

  /** The index after `k` presses of "next". */
  function NextTimes(index: Num, length: nat, k: nat): Num {
    if k == 0 then index else Next(NextTimes(index, length, k - 1), length)
  }

  /** Up to one full round, `k` presses of "next" advance the index by `k`,
      wrapping past the last image back to the first. */
  lemma {:induction false} NextTimesAdvances(index: Num, length: nat, k: nat)
    requires InRange(index, length) && k <= length
    ensures NextTimes(index, length, k) ==
      Int(if index.v + k < length then index.v + k else index.v + k - length)
  {
    if k > 0 {
      NextTimesAdvances(index, length, k - 1);
    }
  }

  /** Pressing "next" once per image brings the viewer back to where it started. */
  lemma FullCycleReturns(index: Num, length: nat)
    requires InRange(index, length)
    ensures NextTimes(index, length, length) == index
  {
    NextTimesAdvances(index, length, length);
  }

  /** The viewer component. The starting index comes from the caller as it is,
      without clamping; `index` is then replaced by each navigation step. */
  class ImageBox {
    const items: seq<string>
    var index: Num

    constructor (items: seq<string>, index: int)
      ensures this.items == items && this.index == Int(index)
    {
      this.items := items;
      this.index := Int(index);
    }

    method OnPrev()
      modifies this
      ensures index == Prev(old(index), |items|)
    {
      index := Prev(index, |items|);
    }

    method OnNext()
      modifies this
      ensures index == Next(old(index), |items|)
    {
      index := Next(index, |items|);
    }

    /** The key bindings, which are active whether or not anything is drawn. */
    method OnKeyPress(k: Key)
      modifies this
      ensures index == Step(old(index), |items|, KeyMove(k))
      ensures k in {Up, Left} ==> index == Prev(old(index), |items|)
      ensures k in {Down, Right} ==> index == Next(old(index), |items|)
    {
      match k
      case Up => OnPrev();
      case Left => OnPrev();
      case Down => OnNext();
      case Right => OnNext();
    }

    /** A click on one of the zones; on a mobile device there are none to click. */
    method OnZoneClick(zone: Move, mobile: bool)
      modifies this
      ensures mobile ==> index == old(index)
      ensures !mobile ==> index == Step(old(index), |items|, zone)
    {
      if zone in Zones(mobile) {
        match zone
        case Back => OnPrev();
        case Forward => OnNext();
      }
    }

    /** What the component renders: nothing when the guard fails, otherwise
        the current image, the click zones and the position label. */
    function Render(mobile: bool): (view: Option<Frame>)
      reads this
      ensures view.None? <==> !(InRange(index, |items|) && items[index.v] != "")
      ensures view.Some? ==> view.value.image == items[index.v]
      ensures view.Some? ==> 1 <= view.value.chip.position <= view.value.chip.total == |items|
      ensures view.Some? ==> (view.value.zones == [] <==> mobile)
      ensures view.Some? ==> view.value.chip == Label(index.v + 1, |items|)
      ensures view.Some? ==> view.value.zones == Zones(mobile)
      ensures view.Some? && !mobile ==> view.value.zones == [Back, Forward]
    {
      if !Shows(items, index) then None
      else
        Some(Frame(items[index.v], Zones(mobile), PositionLabel(items, index)))
    }
  }
}
