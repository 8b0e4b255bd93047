/**
 * The on-screen button layer of the game's user interface: the tap/swipe
 * classifier, the button value with its position and size, and the
 * button manager that hands out ids and hit-tests the pointer against
 * the buttons it stores.
 *
 * Screen coordinates have their origin at the bottom left of the window;
 * pointer coordinates have theirs at the top left, so the manager flips
 * the pointer's y coordinate against the window height before testing.
 */
module Gui {

  /** A value that may be absent, as the hit test returns it. */
  datatype Option<T> = None | Some(value: T)

  /** Largest value of the 32-bit signed integer that holds a button id. */
  const I32_MAX: int := 0x7fff_ffff

  /** Pointer displacement, in pixels, at or beyond which a press/release pair is a swipe. */
  const TAP_TOLERANCE: int := 20

  /** A position in pixels. */
  datatype ScreenPos = ScreenPos(x: int, y: int)

  /** A width and height in pixels. */
  datatype Size2 = Size2(w: int, h: int)

  function Abs(n: int): (r: nat)
    ensures r == n || r == -n
  {
    if n < 0 then -n else n
  }

  /**
   * A press at `lastPress` released at `pos` is a tap exactly when the
   * pointer moved strictly less than the tolerance along each axis.
   */
  function IsTap(pos: ScreenPos, lastPress: ScreenPos): (r: bool)
    ensures r <==> (lastPress.x - TAP_TOLERANCE < pos.x < lastPress.x + TAP_TOLERANCE
                    && lastPress.y - TAP_TOLERANCE < pos.y < lastPress.y + TAP_TOLERANCE)
  {
    var dx := pos.x - lastPress.x;
    var dy := pos.y - lastPress.y;
    Abs(dx) < TAP_TOLERANCE && Abs(dy) < TAP_TOLERANCE
  }

  /** The tolerance is exclusive: 19 pixels on both axes is a tap, 20 on either is not. */
  lemma IsTapBoundary(last: ScreenPos)
    ensures IsTap(ScreenPos(last.x + 19, last.y + 19), last)
    ensures IsTap(ScreenPos(last.x - 19, last.y - 19), last)
    ensures !IsTap(ScreenPos(last.x + 20, last.y), last)
    ensures !IsTap(ScreenPos(last.x, last.y + 20), last)
    ensures !IsTap(ScreenPos(last.x - 20, last.y), last)
    ensures !IsTap(ScreenPos(last.x, last.y - 20), last)
  {
  }

  /** Being a tap does not depend on which of the two samples came first. */
  lemma IsTapSymmetric(a: ScreenPos, b: ScreenPos)
    ensures IsTap(a, b) == IsTap(b, a)
  {
  }

  /** An id handed out by the button manager. */
  datatype ButtonId = ButtonId(id: int)

  /**
   * A button: where it is drawn and how large its label's texture is.
   * The destructors `pos` and `size` are the two read accessors.
   */
  datatype Button = Button(pos: ScreenPos, size: Size2) {

    /** The same button moved to `p`; its size is kept. */
    function SetPos(p: ScreenPos): (r: Button)
      ensures r.pos == p && r.size == size
    {
      this.(pos := p)
    }

    /** The point lies in the button's box, every edge included. */
    predicate Contains(x: int, y: int) {
      pos.x <= x <= pos.x + size.w && pos.y <= y <= pos.y + size.h
    }
  }

  /** Moving a button twice is moving it once to the later place; moving it where it is changes nothing. */
  lemma SetPosLaws(b: Button, p: ScreenPos, q: ScreenPos)
    ensures b.SetPos(p).SetPos(q) == b.SetPos(q)
    ensures b.SetPos(b.pos) == b
    ensures b.SetPos(p).Contains(p.x, p.y) <==> b.size.w >= 0 && b.size.h >= 0
  {
  }

  /**
   * The store of buttons keyed by id. `lastId` is the next id to hand
   * out; it only grows, so an id is never handed out twice, not even
   * after its button was removed.
   */
  class ButtonManager {
    var buttons: map<ButtonId, Button>
    var lastId: ButtonId
    /** Every id handed out so far. */
    ghost var Issued: set<ButtonId>

    /** The ids handed out are exactly those below the counter, and every stored button has one. */
    ghost predicate Valid()
      reads this
    {
      && 0 <= lastId.id <= I32_MAX
      && (forall i :: i in Issued <==> 0 <= i.id < lastId.id)
      && buttons.Keys <= Issued
    }

    constructor ()
      ensures Valid()
      ensures buttons == map[] && lastId == ButtonId(0) && Issued == {}
    {
      buttons := map[];
      lastId := ButtonId(0);
      Issued := {};
    }

    /** Read access to the stored buttons: all of them carry ids below the counter. */
    function Buttons(): (m: map<ButtonId, Button>)
      reads this
      requires Valid()
      ensures forall i :: i in m ==> 0 <= i.id < lastId.id
    {
      buttons
    }

    /**
     * Stores `button` under the counter's value and advances the counter.
     * The counter is a 32-bit integer; advancing it past its largest
     * value is an overflow fault, which the precondition excludes.
     */
    method AddButton(button: Button) returns (id: ButtonId)
      requires Valid()
      requires lastId.id < I32_MAX
      modifies this
      ensures Valid()
      ensures id == old(lastId) && lastId.id == old(lastId.id) + 1
      ensures id !in old(Issued) && Issued == old(Issued) + {id}
      ensures id !in old(buttons) && buttons == old(buttons)[id := button]
    {
      id := lastId;
      buttons := buttons[id := button];
      lastId := ButtonId(lastId.id + 1);
      Issued := Issued + {id};
    }

    /** Deletes the button stored under `id`; an absent id is a fatal fault, which the precondition excludes. */
    method RemoveButton(id: ButtonId)
      requires Valid()
      requires id in buttons
      modifies this
      ensures Valid()
      ensures buttons == old(buttons) - {id}
      ensures lastId == old(lastId) && Issued == old(Issued)
    {
      buttons := buttons - {id};
    }

    /**
     * The id of a button whose box holds the pointer, with the pointer's
     * y coordinate flipped against the window height. The map is visited
     * in no particular order, so when boxes overlap any of the buttons
     * holding the point may be answered.
     */
    method GetClickedButtonId(mouse: ScreenPos, winSize: Size2) returns (r: Option<ButtonId>)
      ensures r.Some? ==> r.value in buttons && buttons[r.value].Contains(mouse.x, winSize.h - mouse.y)
      ensures r.None? <==> forall i :: i in buttons ==> !buttons[i].Contains(mouse.x, winSize.h - mouse.y)
    {
      var x := mouse.x;
      var y := winSize.h - mouse.y;
      var unvisited := buttons.Keys;
      while unvisited != {}
        invariant unvisited <= buttons.Keys
        invariant forall i :: i in buttons && i !in unvisited ==> !buttons[i].Contains(x, y)
        decreases |unvisited|
      {
        var id :| id in unvisited;
        var button := buttons[id];
        if x >= button.pos.x && x <= button.pos.x + button.size.w
          && y >= button.pos.y && y <= button.pos.y + button.size.h
        {
          return Some(id);
        }
        unvisited := unvisited - {id};
      }
      return None;
    }
  }

  /**
   * Three buttons get ids 0, 1 and 2; after the middle one is removed a
   * fourth gets 3: a removed id is not handed out again.
   */
  method IdsAreNeverReused(b1: Button, b2: Button, b3: Button, b4: Button)
    returns (i1: ButtonId, i2: ButtonId, i3: ButtonId, i4: ButtonId)
    ensures i1.id == 0 && i2.id == 1 && i3.id == 2 && i4.id == 3
  {
    var m := new ButtonManager();
    i1 := m.AddButton(b1);
    i2 := m.AddButton(b2);
    i3 := m.AddButton(b3);
    m.RemoveButton(i2);
    i4 := m.AddButton(b4);
  }

  /**
   * A button at (10, 10) of size (50, 20) is hit by pointers that map to
   * its corners (10, 10) and (60, 30) and missed by pointers that map to
   * (61, 10) and (9, 10).
   */
  method HitTestBoundaries(winSize: Size2)
    returns (id: ButtonId, low: Option<ButtonId>, high: Option<ButtonId>,
             right: Option<ButtonId>, left: Option<ButtonId>)
    ensures low == Some(id) && high == Some(id)
    ensures right == None && left == None
  {
    var m := new ButtonManager();
    id := m.AddButton(Button(ScreenPos(10, 10), Size2(50, 20)));
    low := m.GetClickedButtonId(ScreenPos(10, winSize.h - 10), winSize);
    high := m.GetClickedButtonId(ScreenPos(60, winSize.h - 30), winSize);
    right := m.GetClickedButtonId(ScreenPos(61, winSize.h - 10), winSize);
    left := m.GetClickedButtonId(ScreenPos(9, winSize.h - 10), winSize);
  }
}
