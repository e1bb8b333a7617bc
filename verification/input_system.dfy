/**
 * The input singleton: a map from key codes to key observers that is stepped
 * once per frame while the window has focus and cleared while it has not,
 * and the mouse position and velocity in client coordinates.
 */
module Input {
  import opened KeyObservers

  /** POINT: a cursor position in client pixels. */
  datatype Point = Point(x: int, y: int)

  /** RECT: the client rectangle. */
  datatype Rect = Rect(left: int, top: int, right: int, bottom: int)

  /** A 32-bit float result: a finite value, or an infinity or NaN from a division by zero. */
  datatype FloatValue = Finite(value: real) | NonFinite

  /** The mouse velocity (XMFLOAT2). */
  datatype MouseVel = MouseVel(x: FloatValue, y: FloatValue)

  /** float(n) / float(d): a division by a zero width or height is not finite. */
  function Divide(n: int, d: int): (r: FloatValue)
    ensures r.NonFinite? <==> d == 0
    ensures r.Finite? ==> r.value * (d as real) == n as real
  {
    if d == 0 then NonFinite else Finite(n as real / d as real)
  }

  /** The pixel delta since the last in-focus frame over the client width and height. */
  function MouseVelocity(previous: Point, current: Point, client: Rect): MouseVel {
    var windowWidth := client.right - client.left;
    var windowHeight := client.bottom - client.top;
    MouseVel(Divide(current.x - previous.x, windowWidth), Divide(current.y - previous.y, windowHeight))
  }

  /** Moving the cursor by a whole client width to the right reads as velocity 1 on x. */
  lemma MouseVelocityFullWidth(previous: Point, client: Rect)
    requires client.right != client.left
    ensures MouseVelocity(previous, Point(previous.x + client.right - client.left, previous.y), client).x
            == Finite(1.0)
  {
    var w := client.right - client.left;
    assert previous.x + client.right - client.left - previous.x == w;
    assert (w as real) / (w as real) == 1.0;
  }

  /** What one frame does to the flags of one observer. */
  function StepKey(e: EdgeState, wndInFocus: bool, isKeyDown: bool): EdgeState {
    if wndInFocus then NextEdge(e.held, isKeyDown) else Idle
  }

  /**
   * Losing focus forgets that a key was held: a key that is down on the first
   * frame after focus returns is reported pressed again, while a key kept down
   * with focus is not.
   */
  lemma RefocusReportsPressAgain(e: EdgeState, downWhileUnfocused: bool)
    ensures StepKey(StepKey(e, false, downWhileUnfocused), true, true).pressed
    ensures !StepKey(StepKey(e, true, true), true, true).pressed
  {
  }

  class InputSystem {
    /** m_keyMapper: every observer is its own object (the map holds them by value). */
    var keyMapper: map<int, KeyObserver>
    /** m_mousePos */
    var mousePos: Point
    /** m_mouseVel */
    var mouseVel: MouseVel

    predicate Valid()
      reads this, keyMapper.Values
    {
      ObserversDistinct() && forall k :: k in keyMapper ==> keyMapper[k].key == k || keyMapper[k].key == NoKey
    }

    /** No observer object is shared by two keys. */
    predicate ObserversDistinct()
      reads this
    {
      forall a, b :: a in keyMapper && b in keyMapper && a != b ==> keyMapper[a] != keyMapper[b]
    }

    /** The flags of a key as a lookup that inserts nothing: an unobserved key reads all-false. */
    function Peek(key: int): (e: EdgeState)
      reads this, keyMapper.Values
      ensures key !in keyMapper ==> e == Idle
    {
      if key in keyMapper then keyMapper[key].Edge() else Idle
    }

    /** The singleton has static storage: no keys, and a zero mouse position and velocity. */
    constructor ()
      ensures Valid() && keyMapper == map[]
      ensures mousePos == Point(0, 0) && mouseVel == MouseVel(Finite(0.0), Finite(0.0))
    {
      keyMapper := map[];
      mousePos := Point(0, 0);
      mouseVel := MouseVel(Finite(0.0), Finite(0.0));
    }

    /** Starts observing key with all flags cleared, replacing any observer it already had. */
    method ObserveKey(key: int)
      requires Valid()
      modifies this
      ensures Valid()
      ensures key in keyMapper && fresh(keyMapper[key])
      ensures keyMapper[key].key == key && keyMapper[key].Edge() == Idle
      ensures keyMapper == old(keyMapper)[key := keyMapper[key]]
      ensures mousePos == old(mousePos) && mouseVel == old(mouseVel)
    {
      var observer := new KeyObserver.WithKey(key);
      keyMapper := keyMapper[key := observer];
    }

    /**
     * One frame. In focus: every observer samples its own key once, and the
     * mouse velocity and position are taken from the cursor and the client
     * rectangle. Out of focus: every observer's flags are cleared and the
     * mouse state is kept. isKeyDown, cursor and client are what the Win32
     * key, cursor and client-rectangle queries return during this call.
     */
    method Update(deltaTime: real, wndInFocus: bool, isKeyDown: int -> bool, cursor: Point, client: Rect)
      requires Valid()
      modifies this, keyMapper.Values
      ensures Valid() && keyMapper == old(keyMapper)
      ensures forall k :: k in keyMapper ==>
                keyMapper[k].Edge() == StepKey(old(keyMapper[k].Edge()), wndInFocus, isKeyDown(keyMapper[k].key))
      ensures wndInFocus ==> mousePos == cursor && mouseVel == MouseVelocity(old(mousePos), cursor, client)
      ensures !wndInFocus ==> mousePos == old(mousePos) && mouseVel == old(mouseVel)
    {
      if wndInFocus {
        StepObservers(isKeyDown);

        var windowWidth := client.right - client.left;
        var windowHeight := client.bottom - client.top;
        var mouseDeltaX := cursor.x - mousePos.x;
        var mouseDeltaY := cursor.y - mousePos.y;
        mouseVel := MouseVel(Divide(mouseDeltaX, windowWidth), Divide(mouseDeltaY, windowHeight));
        mousePos := cursor;
      } else {
        ClearObservers();
      }
    }

    /** The in-focus loop: every observer samples its own key, once. */
    method StepObservers(isKeyDown: int -> bool)
      requires ObserversDistinct()
      modifies keyMapper.Values
      ensures forall k :: k in keyMapper ==>
                keyMapper[k].Edge() == NextEdge(old(keyMapper[k].held), isKeyDown(keyMapper[k].key))
    {
      var keys := keyMapper.Keys;
      while exists k :: k in keys
        invariant keys <= keyMapper.Keys
        invariant forall k :: k in keyMapper && k !in keys ==>
                    keyMapper[k].Edge() == NextEdge(old(keyMapper[k].held), isKeyDown(keyMapper[k].key))
        invariant forall k :: k in keys ==> keyMapper[k].Edge() == old(keyMapper[k].Edge())
        decreases keys
      {
        var k: int :| k in keys;
        var observer := keyMapper[k];
        observer.Update(isKeyDown(observer.key));
        keys := keys - {k};
      }
    }

    /** The out-of-focus loop: every observer's flags are cleared. */
    method ClearObservers()
      modifies keyMapper.Values
      ensures forall k :: k in keyMapper ==> keyMapper[k].Edge() == Idle
    {
      var keys := keyMapper.Keys;
      while exists k :: k in keys
        invariant keys <= keyMapper.Keys
        invariant forall k :: k in keyMapper && k !in keys ==> keyMapper[k].Edge() == Idle
        decreases keys
      {
        var k: int :| k in keys;
        var observer := keyMapper[k];
        observer.pressed := false;
        observer.held := false;
        observer.released := false;
        keys := keys - {k};
      }
    }

    /**
     * A lookup as operator[] does it: an unobserved key gets a default
     * observer, which observes key code -1 and has every flag cleared.
     */
    twostate predicate LookedUp(key: int)
      reads this, keyMapper.Values
    {
      && key in keyMapper
      && (key in old(keyMapper) ==> keyMapper == old(keyMapper))
      && (key !in old(keyMapper) ==>
            && keyMapper == old(keyMapper)[key := keyMapper[key]]
            && fresh(keyMapper[key])
            && keyMapper[key].key == NoKey
            && keyMapper[key].Edge() == Idle)
    }

    /** m_keyMapper[key]: the observer of key, inserted first when missing. */
    method Entry(key: int) returns (observer: KeyObserver)
      requires Valid()
      modifies this
      ensures Valid() && LookedUp(key) && observer == keyMapper[key]
      ensures mousePos == old(mousePos) && mouseVel == old(mouseVel)
    {
      if key !in keyMapper {
        var inserted := new KeyObserver();
        keyMapper := keyMapper[key := inserted];
      }
      observer := keyMapper[key];
    }

    method Pressed(key: int) returns (b: bool)
      requires Valid()
      modifies this
      ensures Valid() && LookedUp(key)
      ensures b == old(Peek(key)).pressed
      ensures mousePos == old(mousePos) && mouseVel == old(mouseVel)
    {
      var observer := Entry(key);
      b := observer.pressed;
    }

    method Held(key: int) returns (b: bool)
      requires Valid()
      modifies this
      ensures Valid() && LookedUp(key)
      ensures b == old(Peek(key)).held
      ensures mousePos == old(mousePos) && mouseVel == old(mouseVel)
    {
      var observer := Entry(key);
      b := observer.held;
    }

    method Released(key: int) returns (b: bool)
      requires Valid()
      modifies this
      ensures Valid() && LookedUp(key)
      ensures b == old(Peek(key)).released
      ensures mousePos == old(mousePos) && mouseVel == old(mouseVel)
    {
      var observer := Entry(key);
      b := observer.released;
    }
  }
}
