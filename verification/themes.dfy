/**
 The colour themes of the map (`colorThemes` and its key type `ThemeKey`).
 Only the keys and display names are modelled; the palettes' colour values
 are presentation data.
 */
module Themes {
  import opened Wrappers

  /** One constructor per key of `colorThemes`, in declaration order. */
  datatype ThemeKey =
    | Classic | Dark | Earth | Sepia | Monochrome
    | NeonBlue | NeonPink | NeonGreen | Cyberpunk | Retrowave

  /** The theme selected on first load and whenever nothing valid is supplied. */
  const DefaultTheme: ThemeKey := Classic

  /** The object key of a theme in `colorThemes`. */
  function KeyName(t: ThemeKey): string {
    match t
    case Classic => "classic"
    case Dark => "dark"
    case Earth => "earth"
    case Sepia => "sepia"
    case Monochrome => "monochrome"
    case NeonBlue => "neonBlue"
    case NeonPink => "neonPink"
    case NeonGreen => "neonGreen"
    case Cyberpunk => "cyberpunk"
    case Retrowave => "retrowave"
  }

  /** The `name` field of each theme's palette. */
  function DisplayName(t: ThemeKey): string {
    match t
    case Classic => "Classic"
    case Dark => "Dark"
    case Earth => "Earth"
    case Sepia => "Sepia"
    case Monochrome => "Monochrome"
    case NeonBlue => "Neon Blue"
    case NeonPink => "Neon Pink"
    case NeonGreen => "Neon Green"
    case Cyberpunk => "Cyberpunk"
    case Retrowave => "Retrowave"
  }

  /** `Object.keys(colorThemes)`. */
  const ThemeKeys: seq<string> :=
    ["classic", "dark", "earth", "sepia", "monochrome",
     "neonBlue", "neonPink", "neonGreen", "cyberpunk", "retrowave"]

  /** The `SelectItem`s of the theme selector: (value, label), in display order. */
  const SelectorItems: seq<(string, string)> :=
    [("classic", "Classic"), ("dark", "Dark"), ("earth", "Earth"), ("sepia", "Sepia"),
     ("monochrome", "Monochrome"), ("neonBlue", "Neon Blue"), ("neonPink", "Neon Pink"),
     ("neonGreen", "Neon Green"), ("cyberpunk", "Cyberpunk"), ("retrowave", "Retrowave")]

  /**
   The guard `Object.keys(colorThemes).includes(s)` followed by the cast to
   `ThemeKey`: a theme for exactly the strings that are keys.
   */
  function ParseTheme(s: string): (r: Option<ThemeKey>)
    ensures r.Some? <==> s in ThemeKeys
    ensures r.Some? ==> KeyName(r.value) == s
  {
    if s == "classic" then Some(Classic)
    else if s == "dark" then Some(Dark)
    else if s == "earth" then Some(Earth)
    else if s == "sepia" then Some(Sepia)
    else if s == "monochrome" then Some(Monochrome)
    else if s == "neonBlue" then Some(NeonBlue)
    else if s == "neonPink" then Some(NeonPink)
    else if s == "neonGreen" then Some(NeonGreen)
    else if s == "cyberpunk" then Some(Cyberpunk)
    else if s == "retrowave" then Some(Retrowave)
    else None
  }

  /** Writing a theme's key and reading it back yields the same theme; every theme has a key. */
  lemma ParseKeyName(t: ThemeKey)
    ensures ParseTheme(KeyName(t)) == Some(t)
    ensures KeyName(t) in ThemeKeys
  {
  }

  /** Distinct themes have distinct keys, and the key list has no repeats. */
  lemma KeysDistinct()
    ensures forall t, u: ThemeKey :: KeyName(t) == KeyName(u) ==> t == u
    ensures forall i, j :: 0 <= i < j < |ThemeKeys| ==> ThemeKeys[i] != ThemeKeys[j]
  {
    forall t, u: ThemeKey | KeyName(t) == KeyName(u)
      ensures t == u
    {
      ParseKeyName(t);
      ParseKeyName(u);
    }
  }

  /**
   The selector offers exactly the keys of `colorThemes`, in the same order,
   each labelled with its palette's display name.
   */
  lemma SelectorMatchesThemes()
    ensures |SelectorItems| == |ThemeKeys| == 10
    ensures forall i :: 0 <= i < |SelectorItems| ==> SelectorItems[i].0 == ThemeKeys[i]
    ensures forall i :: 0 <= i < |SelectorItems| ==>
      ParseTheme(SelectorItems[i].0).Some? && DisplayName(ParseTheme(SelectorItems[i].0).value) == SelectorItems[i].1
  {
  }
}
