/** The WindowProps record of Window.h: a window's title and size. */
module WindowProperties {
  import opened Numeric

  /** Each parameter of the C++ constructor defaults to the engine's standard window. */
  datatype WindowProps = WindowProps(
    title: string := "Mashenka Engine",
    width: u32 := 1280,
    height: u32 := 720)

  /** A WindowProps built with no arguments describes a 1280 by 720 window titled "Mashenka Engine". */
  lemma DefaultWindowProps()
    ensures WindowProps().title == "Mashenka Engine"
    ensures WindowProps().width == 1280
    ensures WindowProps().height == 720
  {
  }

  /** Explicit arguments are stored unchanged, and each omitted one takes its own default. */
  lemma ExplicitWindowProps(title: string, width: u32, height: u32)
    ensures WindowProps(title, width, height).title == title
    ensures WindowProps(title, width, height).width == width
    ensures WindowProps(title, width, height).height == height
    ensures WindowProps(title) == WindowProps(title, 1280, 720)
    ensures WindowProps(title, width) == WindowProps(title, width, 720)
  {
  }
}
