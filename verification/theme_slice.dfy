/** The client's colour theme (client/src/features/theme/themeSlice.js). The
    initial mode comes from local storage or the browser's preference and is
    a constructor argument; the writes to local storage are left out. */
module ThemeSlice {

  /** toggleTheme's rule: "light" becomes "dark", anything else "light". */
  function Toggled(mode: string): (r: string)
    ensures mode == "light" ==> r == "dark"
    ensures mode != "light" ==> r == "light"
  {
    if mode == "light" then "dark" else "light"
  }

  /** Toggling always lands on one of the two known modes. */
  lemma ToggledIsKnown(mode: string)
    ensures Toggled(mode) == "light" || Toggled(mode) == "dark"
  {
  }

  /** Toggling twice restores "light" and "dark", and turns any other mode into "dark". */
  lemma ToggleTwice(mode: string)
    ensures mode == "light" || mode == "dark" ==> Toggled(Toggled(mode)) == mode
    ensures mode != "light" && mode != "dark" ==> Toggled(Toggled(mode)) == "dark"
  {
  }

  class ThemeState {
    var mode: string

    constructor (initial: string)
      ensures mode == initial
    {
      mode := initial;
    }

    method ToggleTheme()
      modifies this
      ensures mode == Toggled(old(mode))
    {
      mode := if mode == "light" then "dark" else "light";
    }

    /** setTheme: the payload becomes the mode, unchecked. */
    method SetTheme(payload: string)
      modifies this
      ensures mode == payload
    {
      mode := payload;
    }
  }
}
