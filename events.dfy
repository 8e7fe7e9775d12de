/**
 * The key events of KeyEvent.h and the application events of
 * ApplicationEvent.h as one closed family of immutable values. Each variant
 * has a fixed type tag (EVENT_CLASS_TYPE), a fixed set of category flags
 * (EVENT_CLASS_CATEGORY), the payload its constructor stores, and, where the
 * class overrides it, a debug string (ToString).
 */
module Events {
  import opened Numeric
  import opened Decimal

  /** The key code of a key event, printed by the stream as a decimal number. */
  type KeyCode = nat

  /** The type tags named by EVENT_CLASS_TYPE in the two headers (spelling as in the source). */
  datatype EventType =
    | WindowResize | WindowsClose | AppTick | AppUpdate | AppRender
    | KeyPressed | KeyReleased | KeyTyped

  /** The category flags named by EVENT_CLASS_CATEGORY in the two headers, as distinct flags. */
  datatype CategoryFlag = EventCategoryApplication | EventCategoryInput

  datatype Event =
    | KeyPressedEvent(keyCode: KeyCode, repeatCount: i32)
    | KeyReleasedEvent(keyCode: KeyCode)
    | KeyTypedEvent(keyCode: KeyCode)
    | WindowResizeEvent(width: u32, height: u32)
    | WindowCloseEvent
    | AppTickEvent
    | AppUpdateEvent
    | AppRenderEvent
  {
    /** The subclasses of KeyEvent. */
    predicate IsKeyEvent() {
      KeyPressedEvent? || KeyReleasedEvent? || KeyTypedEvent?
    }
  }

  /** The tag each class reports through EVENT_CLASS_TYPE. */
  function Type(e: Event): (t: EventType)
    ensures t in {KeyPressed, KeyReleased, KeyTyped} <==> e.IsKeyEvent()
  {
    match e
    case KeyPressedEvent(_, _) => KeyPressed
    case KeyReleasedEvent(_) => KeyReleased
    case KeyTypedEvent(_) => KeyTyped
    case WindowResizeEvent(_, _) => WindowResize
    case WindowCloseEvent => WindowsClose
    case AppTickEvent => AppTick
    case AppUpdateEvent => AppUpdate
    case AppRenderEvent => AppRender
  }

  /**
   * The flags each class reports through EVENT_CLASS_CATEGORY: KeyEvent
   * declares Application | Input for all its subclasses, and every
   * application event declares Application alone.
   */
  function Category(e: Event): (c: set<CategoryFlag>)
    ensures EventCategoryApplication in c
    ensures EventCategoryInput in c <==> e.IsKeyEvent()
    ensures c <= {EventCategoryApplication, EventCategoryInput}
  {
    match e
    case KeyPressedEvent(_, _) => {EventCategoryApplication, EventCategoryInput}
    case KeyReleasedEvent(_) => {EventCategoryApplication, EventCategoryInput}
    case KeyTypedEvent(_) => {EventCategoryApplication, EventCategoryInput}
    case _ => {EventCategoryApplication}
  }

  /** The name of the C++ class of an event. */
  function ClassName(e: Event): (name: string) {
    match e
    case KeyPressedEvent(_, _) => "KeyPressedEvent"
    case KeyReleasedEvent(_) => "KeyReleasedEvent"
    case KeyTypedEvent(_) => "KeyTypedEvent"
    case WindowResizeEvent(_, _) => "WindowResizeEvent"
    case WindowCloseEvent => "WindowCloseEvent"
    case AppTickEvent => "AppTickEvent"
    case AppUpdateEvent => "AppUpdateEvent"
    case AppRenderEvent => "AppRenderEvent"
  }

  /** The classes of the two headers that override ToString. */
  predicate OverridesToString(e: Event) {
    e.IsKeyEvent() || e.WindowResizeEvent?
  }

  /**
   * The debug string of the classes that override ToString. The other four
   * classes inherit the base-class ToString of Event.h, which is not part of
   * this model: for them the result is None.
   */
  function ToString(e: Event): (r: Option<string>)
    ensures r.Some? <==> OverridesToString(e)
    ensures r.Some? ==> ClassName(e) <= r.value
  {
    match e
    case KeyPressedEvent(k, n) =>
      Some("KeyPressedEvent" + NatToDecimal(k) + " (" + IntToDecimal(n) + " repeats)")
    case KeyReleasedEvent(k) => Some("KeyReleasedEvent: " + NatToDecimal(k))
    case KeyTypedEvent(k) => Some("KeyTypedEvent: " + NatToDecimal(k))
    case WindowResizeEvent(w, h) =>
      Some("WindowResizeEvent: " + NatToDecimal(w) + "," + NatToDecimal(h))
    case _ => None
  }

  datatype Option<T> = None | Some(value: T)

  // ---------------------------------------------------------------------
  // Properties of the family

  /** Each class reports its own tag: two events share a tag exactly when they are of the same class. */
  lemma TypeTagsDistinct(e1: Event, e2: Event)
    ensures Type(e1) == Type(e2) <==> ClassName(e1) == ClassName(e2)
  {
  }

  /** The category flags are a function of the type tag alone, never of the payload. */
  lemma CategoryDependsOnlyOnType(e1: Event, e2: Event)
    requires Type(e1) == Type(e2)
    ensures Category(e1) == Category(e2)
  {
  }

  /** Every key event is in exactly the Application and Input categories. */
  lemma KeyEventCategory(e: Event)
    requires e.IsKeyEvent()
    ensures Category(e) == {EventCategoryApplication, EventCategoryInput}
  {
  }

  /** Every application event is in exactly the Application category, never Input. */
  lemma ApplicationEventCategory(e: Event)
    requires !e.IsKeyEvent()
    ensures Category(e) == {EventCategoryApplication}
  {
  }

  /** The getters return what the constructors stored. */
  lemma ConstructorPayload(k: KeyCode, n: i32, w: u32, h: u32)
    ensures KeyPressedEvent(k, n).keyCode == k && KeyPressedEvent(k, n).repeatCount == n
    ensures KeyReleasedEvent(k).keyCode == k && KeyTypedEvent(k).keyCode == k
    ensures WindowResizeEvent(w, h).width == w && WindowResizeEvent(w, h).height == h
  {
  }

  /**
   * KeyReleasedEvent and KeyTypedEvent hold nothing but the key code, and the
   * parameterless application events hold nothing at all.
   */
  lemma PayloadDeterminesEvent(e1: Event, e2: Event)
    requires Type(e1) == Type(e2)
    requires e1.KeyReleasedEvent? || e1.KeyTypedEvent? ==> e1.keyCode == e2.keyCode
    requires e1.KeyPressedEvent? ==> e1.keyCode == e2.keyCode && e1.repeatCount == e2.repeatCount
    requires e1.WindowResizeEvent? ==> e1.width == e2.width && e1.height == e2.height
    ensures e1 == e2
  {
  }

  /** The exact formats of the four overriding ToString methods. */
  lemma ToStringFormats(k: KeyCode, n: i32, w: u32, h: u32)
    ensures ToString(KeyPressedEvent(k, n)).value
         == "KeyPressedEvent" + NatToDecimal(k) + " (" + IntToDecimal(n) + " repeats)"
    ensures ToString(KeyReleasedEvent(k)).value == "KeyReleasedEvent: " + NatToDecimal(k)
    ensures ToString(KeyTypedEvent(k)).value == "KeyTypedEvent: " + NatToDecimal(k)
    ensures ToString(WindowResizeEvent(w, h)).value
         == "WindowResizeEvent: " + NatToDecimal(w) + "," + NatToDecimal(h)
  {
  }

  /**
   * The debug string identifies the event: no two events with an overriding
   * ToString print the same, even though KeyPressedEvent puts no separator
   * between its class name and the key code.
   */
  lemma ToStringInjective(e1: Event, e2: Event)
    requires ToString(e1).Some? && ToString(e1) == ToString(e2)
    ensures e1 == e2
  {
    ToStringDeterminesClass(e1, e2);
    match e1
    case KeyPressedEvent(k1, n1) =>
      KeyPressedFormatInjective(k1, n1, e2.keyCode, e2.repeatCount);
    case KeyReleasedEvent(k1) =>
      PrefixedNumeralInjective("KeyReleasedEvent: ", k1, e2.keyCode);
    case KeyTypedEvent(k1) =>
      PrefixedNumeralInjective("KeyTypedEvent: ", k1, e2.keyCode);
    case WindowResizeEvent(w1, h1) =>
      WindowResizeFormatInjective(w1, h1, e2.width, e2.height);
  }

  /** The class names of the overriding classes differ at index 0 or index 3. */
  lemma ToStringDeterminesClass(e1: Event, e2: Event)
    requires ToString(e1).Some? && ToString(e1) == ToString(e2)
    ensures ClassName(e1) == ClassName(e2)
  {
    var s := ToString(e1).value;
    assert s[0] == ClassName(e1)[0] == ClassName(e2)[0];
    assert s[3] == ClassName(e1)[3] == ClassName(e2)[3];
  }

  lemma PrefixedNumeralInjective(prefix: string, k1: nat, k2: nat)
    requires prefix + NatToDecimal(k1) == prefix + NatToDecimal(k2)
    ensures k1 == k2
  {
    var s := prefix + NatToDecimal(k1);
    assert s[|prefix|..] == NatToDecimal(k1);
    assert (prefix + NatToDecimal(k2))[|prefix|..] == NatToDecimal(k2);
    IntToDecimalInjective(k1, k2);
  }

  lemma KeyPressedFormatInjective(k1: nat, n1: int, k2: nat, n2: int)
    requires "KeyPressedEvent" + NatToDecimal(k1) + " (" + IntToDecimal(n1) + " repeats)"
          == "KeyPressedEvent" + NatToDecimal(k2) + " (" + IntToDecimal(n2) + " repeats)"
    ensures k1 == k2 && n1 == n2
  {
    var d1, d2, i1, i2 := NatToDecimal(k1), NatToDecimal(k2), IntToDecimal(n1), IntToDecimal(n2);
    KeyPressedShape(d1, i1);
    KeyPressedShape(d2, i2);
    NumeralExcludes(d1, ' ');
    NumeralExcludes(d2, ' ');
    SplitAfterPrefix("KeyPressedEvent", d1, "(" + i1 + " repeats)", d2, "(" + i2 + " repeats)", ' ');
    NumeralExcludes(i1, ' ');
    NumeralExcludes(i2, ' ');
    SplitAfterPrefix("(", i1, "repeats)", i2, "repeats)", ' ');
    IntToDecimalInjective(k1, k2);
    IntToDecimalInjective(n1, n2);
  }

  /** Regroups the KeyPressedEvent format around its two blanks. */
  lemma KeyPressedShape(d: string, i: string)
    ensures "KeyPressedEvent" + d + " (" + i + " repeats)"
         == "KeyPressedEvent" + d + [' '] + ("(" + i + " repeats)")
    ensures "(" + i + " repeats)" == "(" + i + [' '] + "repeats)"
  {
  }

  lemma WindowResizeFormatInjective(w1: nat, h1: nat, w2: nat, h2: nat)
    requires "WindowResizeEvent: " + NatToDecimal(w1) + "," + NatToDecimal(h1)
          == "WindowResizeEvent: " + NatToDecimal(w2) + "," + NatToDecimal(h2)
    ensures w1 == w2 && h1 == h2
  {
    var a1, b1, a2, b2 := NatToDecimal(w1), NatToDecimal(h1), NatToDecimal(w2), NatToDecimal(h2);
    assert "," == [','];
    NumeralExcludes(a1, ',');
    NumeralExcludes(a2, ',');
    SplitAfterPrefix("WindowResizeEvent: ", a1, b1, a2, b2, ',');
    IntToDecimalInjective(w1, w2);
    IntToDecimalInjective(h1, h2);
  }

  /** Drops a common prefix, then splits at the first separator. */
  lemma SplitAfterPrefix(p: string, a1: string, b1: string, a2: string, b2: string, sep: char)
    requires sep !in a1 && sep !in a2
    requires p + a1 + [sep] + b1 == p + a2 + [sep] + b2
    ensures a1 == a2 && b1 == b2
  {
    assert (p + a1 + [sep] + b1)[|p|..] == a1 + [sep] + b1;
    assert (p + a2 + [sep] + b2)[|p|..] == a2 + [sep] + b2;
    SplitAtFirst(a1, b1, a2, b2, sep);
  }
}
