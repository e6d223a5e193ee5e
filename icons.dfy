/** The icon URL a coin row shows: a fixed asset-server prefix, the coin's
    symbol in lower case, and the suffix `@2x.png`.

    JavaScript's `toLowerCase` follows Unicode case mapping; this model lowers
    the ASCII letters `A`..`Z` only and leaves every other character alone. */
module Icons {
  import opened Options

  const IconPrefix: string := "https://assets.coincap.io/assets/icons/"
  const IconSuffix: string := "@2x.png"

  predicate IsUpper(c: char) { 'A' <= c <= 'Z' }

  /** ASCII lower-casing of one character. */
  function LowerChar(c: char): (r: char)
    ensures !IsUpper(r)
    ensures !IsUpper(c) ==> r == c
    ensures IsUpper(c) ==> 'a' <= r <= 'z' && r as int - c as int == 32
  {
    if IsUpper(c) then (c as int + 32) as char else c
  }

  /** ASCII lower-casing of a string, character by character. */
  function ToLower(s: string): (r: string)
    ensures |r| == |s|
    ensures forall i :: 0 <= i < |s| ==> r[i] == LowerChar(s[i])
    ensures forall i :: 0 <= i < |r| ==> !IsUpper(r[i])
  {
    if s == [] then [] else [LowerChar(s[0])] + ToLower(s[1..])
  }

  /** Lower-casing twice is lower-casing once. */
  lemma ToLowerIdempotent(s: string)
    ensures ToLower(ToLower(s)) == ToLower(s)
  {
  }

  /** The URL of the icon for a coin whose symbol is `symbol`. */
  function IconUrl(symbol: string): (url: string)
    ensures |url| == |IconPrefix| + |symbol| + |IconSuffix|
    ensures url[..|IconPrefix|] == IconPrefix
    ensures url[|url| - |IconSuffix|..] == IconSuffix
    ensures forall i :: 0 <= i < |symbol| ==> url[|IconPrefix| + i] == LowerChar(symbol[i])
  {
    IconPrefix + ToLower(symbol) + IconSuffix
  }

  /** Recovers the lower-cased symbol from an icon URL, when `url` has the
      URL template's form. */
  function SymbolOfUrl(url: string): (r: Option<string>)
    ensures r.Some? <==> |url| >= |IconPrefix| + |IconSuffix|
                         && url[..|IconPrefix|] == IconPrefix
                         && url[|url| - |IconSuffix|..] == IconSuffix
    ensures r.Some? ==> |url| == |IconPrefix| + |r.value| + |IconSuffix|
                        && r.value == url[|IconPrefix|..|url| - |IconSuffix|]
  {
    if |url| >= |IconPrefix| + |IconSuffix|
       && url[..|IconPrefix|] == IconPrefix
       && url[|url| - |IconSuffix|..] == IconSuffix
    then Some(url[|IconPrefix|..|url| - |IconSuffix|])
    else None
  }

  /** The URL template is undone by `SymbolOfUrl`, which gives back the
      lower-cased symbol. */
  lemma IconUrlRoundTrip(symbol: string)
    ensures SymbolOfUrl(IconUrl(symbol)) == Some(ToLower(symbol))
  {
  }

  /** Two symbols get the same icon exactly when they agree up to the case of
      their ASCII letters. */
  lemma IconUrlSameIff(s: string, t: string)
    ensures IconUrl(s) == IconUrl(t) <==> ToLower(s) == ToLower(t)
  {
  }

  /** The icon does not depend on the case of the symbol. */
  lemma IconUrlIgnoresCase(s: string)
    ensures IconUrl(ToLower(s)) == IconUrl(s)
  {
  }

  /** The documented example: the symbol `BTC` gives the `btc` icon. */
  lemma IconUrlOfBtc()
    ensures IconUrl("BTC") == "https://assets.coincap.io/assets/icons/btc@2x.png"
  {
  }
}
