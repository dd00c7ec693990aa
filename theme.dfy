/** The light/dark theme switch of the dashboard. The theme is the string the
    theme provider stores; both toggle buttons compute the next theme from
    the current one in the same way. */
module Theme {

  const Dark: string := "dark"
  const Light: string := "light"
  /** The theme used when none is stored. */
  const DefaultTheme: string := Dark

  /** `theme === "dark" ? "light" : "dark"`. */
  function Toggle(theme: string): (next: string)
    ensures next == Dark || next == Light
    ensures next == Light <==> theme == Dark
    ensures (theme == Dark || theme == Light) ==> next != theme
  {
    if theme == Dark then Light else Dark
  }

  /** On the two themes the provider sets, toggling twice restores the theme. */
  lemma ToggleTwice(theme: string)
    requires theme == Dark || theme == Light
    ensures Toggle(Toggle(theme)) == theme
  {
  }

  /** Any other stored value is treated as light: one toggle gives dark, so two
      toggles give light rather than the value itself. */
  lemma ToggleOtherValue(theme: string)
    requires theme != Dark && theme != Light
    ensures Toggle(theme) == Dark && Toggle(Toggle(theme)) == Light
  {
  }

  /** The theme after `clicks` presses of a toggle button. */
  function AfterClicks(theme: string, clicks: nat): string {
    if clicks == 0 then theme else Toggle(AfterClicks(theme, clicks - 1))
  }

  /** From either theme, an even number of clicks returns to it and an odd
      number lands on the other one; in particular from the default theme
      (dark) an odd number of clicks shows light. */
  lemma {:induction false} AfterClicksParity(theme: string, clicks: nat)
    requires theme == Dark || theme == Light
    ensures AfterClicks(theme, clicks) == if clicks % 2 == 0 then theme else Toggle(theme)
  {
    if clicks > 0 {
      AfterClicksParity(theme, clicks - 1);
      ToggleTwice(theme);
    }
  }

  /** With no stored theme the dashboard starts dark, so it shows light after
      an odd number of clicks and dark after an even number. */
  lemma {:induction false} ClicksFromDefault(clicks: nat)
    ensures AfterClicks(DefaultTheme, clicks) == if clicks % 2 == 0 then Dark else Light
  {
    AfterClicksParity(DefaultTheme, clicks);
  }
}
