/**
 * client/src/context/ThemeContext.jsx: the two theme objects, the toggle that
 * picks one by the previous theme's `mode`, and the initial theme, which is the
 * saved one when storage holds a non-empty string. Parsing the saved string is
 * a parameter.
 */
module ThemeContext {
  import opened Wrappers
  import opened Js

  const Light: Val := Obj(map[
    "mode" := Str("light"), "text" := Str("text-black"), "background" := Str("bg-white"),
    "buttonBg" := Str("bg-blue-500"), "cardBg" := Str("bg-gray-50"), "border" := Str("border-gray-300"),
    "linkText" := Str("text-blue-600")])

  const Dark: Val := Obj(map[
    "mode" := Str("dark"), "text" := Str("text-white"), "background" := Str("bg-black"),
    "buttonBg" := Str("bg-blue-700"), "cardBg" := Str("bg-gray-800"), "border" := Str("border-gray-700"),
    "linkText" := Str("text-blue-400")])

  /** `theme.mode` on a theme that is not `null` or `undefined`. */
  function Mode(theme: Val): Val {
    if theme.Obj? then Get(theme.fields, "mode") else Undefined
  }

  /** Reading `prevTheme.mode` throws on `null` and `undefined`. */
  predicate Readable(theme: Val) {
    theme != Null && theme != Undefined
  }

  /** `prevTheme.mode === 'light' ? darkTheme : lightTheme` */
  function Toggle(prev: Val): (r: Val)
    requires Readable(prev)
    ensures r == Dark <==> Mode(prev) == Str("light")
    ensures r == Light <==> Mode(prev) != Str("light")
    ensures Readable(r)
  {
    assert Mode(Light) != Mode(Dark);
    if Mode(prev) == Str("light") then Dark else Light
  }

  /** From either of the two themes, toggling twice comes back to it. */
  lemma ToggleTwice(theme: Val)
    requires theme == Light || theme == Dark
    ensures Toggle(Toggle(theme)) == theme
  {
    assert Mode(Light) == Str("light") && Mode(Dark) == Str("dark");
  }

  /**
   * From any other (saved) theme two toggles land on the built-in theme of the
   * same light/not-light kind: `Light` when its mode was 'light', `Dark` otherwise.
   */
  lemma ToggleTwiceNormalises(theme: Val)
    requires Readable(theme)
    ensures Toggle(Toggle(theme)) == (if Mode(theme) == Str("light") then Light else Dark)
  {
    assert Mode(Light) == Str("light") && Mode(Dark) == Str("dark");
  }

  /** The `useState` initialiser: a non-empty saved string is parsed, otherwise the light theme. */
  function InitialTheme(saved: Option<string>, parse: string -> Val): (r: Val)
    ensures Present(saved) ==> r == parse(saved.value)
    ensures !Present(saved) ==> r == Light
  {
    if Present(saved) then parse(saved.value) else Light
  }

  class Provider {
    var theme: Val

    constructor (saved: Option<string>, parse: string -> Val)
      ensures theme == InitialTheme(saved, parse)
    {
      theme := InitialTheme(saved, parse);
    }

    /** `toggleTheme`: the next theme is chosen by the current one's mode. */
    method ToggleTheme()
      requires Readable(theme)
      modifies this
      ensures theme == Toggle(old(theme))
      ensures theme == Light || theme == Dark
    {
      theme := if Mode(theme) == Str("light") then Dark else Light;
    }
  }
}
