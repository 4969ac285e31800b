/** The style lookup tables shared by the result renderers
    (widget/src/utils/styleHelpers.ts).  Object-literal lookups are maps:
    a key outside the table reads as `undefined`, which the `||` fallbacks
    replace. */
module StyleHelpers {
  import opened Wrappers
  import opened Runtime

  /** `styleMap` of `getResultStyleClass`, keyed by the four result styles. */
  const ResultStyleClasses: map<string, string> := map[
    "default" := "bg-gray-100 text-gray-900 border-gray-300",
    "success" := "bg-green-50 text-green-900 border-green-300",
    "warning" := "bg-yellow-50 text-yellow-900 border-yellow-300",
    "error" := "bg-red-50 text-red-900 border-red-300"
  ]

  /** `sizeMap` of `getFontSizeClass`. */
  const FontSizeClasses: map<string, string> := map[
    "small" := "text-sm",
    "medium" := "text-base",
    "large" := "text-lg",
    "xlarge" := "text-xl"
  ]

  /** `alignMap` of `getTextAlignClass`. */
  const TextAlignClasses: map<string, string> := map[
    "left" := "text-left",
    "center" := "text-center",
    "right" := "text-right"
  ]

  /** `getResultStyleClass(style)`: the style's class, and the default
      style's class for any unrecognised style. */
  function GetResultStyleClass(style: string): (r: string)
    ensures r in ResultStyleClasses.Values
    ensures style == "success" ==> r == "bg-green-50 text-green-900 border-green-300"
    ensures style == "warning" ==> r == "bg-yellow-50 text-yellow-900 border-yellow-300"
    ensures style == "error" ==> r == "bg-red-50 text-red-900 border-red-300"
    ensures style !in {"success", "warning", "error"} ==> r == "bg-gray-100 text-gray-900 border-gray-300"
  {
    if style in ResultStyleClasses then ResultStyleClasses[style] else ResultStyleClasses["default"]
  }

  /** `getFontSizeClass(fontSize)`: an undefined or empty size reads as
      `'medium'`, and a size outside the table falls back to `'text-base'`. */
  function GetFontSizeClass(fontSize: Option<string>): (r: string)
    ensures r in FontSizeClasses.Values
    ensures Truthy(fontSize) && fontSize.value in FontSizeClasses ==> r == FontSizeClasses[fontSize.value]
    ensures !Truthy(fontSize) || fontSize.value !in FontSizeClasses ==> r == "text-base"
  {
    var key := if Truthy(fontSize) then fontSize.value else "medium";
    assert FontSizeClasses["medium"] == "text-base";
    if key in FontSizeClasses then FontSizeClasses[key] else "text-base"
  }

  /** `getTextAlignClass(textAlign)`: an undefined or empty alignment
      reads as `'left'`, and one outside the table falls back to
      `'text-left'`. */
  function GetTextAlignClass(textAlign: Option<string>): (r: string)
    ensures r in TextAlignClasses.Values
    ensures Truthy(textAlign) && textAlign.value in TextAlignClasses ==> r == TextAlignClasses[textAlign.value]
    ensures !Truthy(textAlign) || textAlign.value !in TextAlignClasses ==> r == "text-left"
  {
    var key := if Truthy(textAlign) then textAlign.value else "left";
    assert TextAlignClasses["left"] == "text-left";
    if key in TextAlignClasses then TextAlignClasses[key] else "text-left"
  }

  /** The four result styles render distinguishably, and every other
      style looks exactly like `'default'`. */
  lemma ResultStyleClassDistinguishes(s: string, t: string)
    ensures GetResultStyleClass(s) == GetResultStyleClass(t) <==>
      s == t || (s !in {"success", "warning", "error"} && t !in {"success", "warning", "error"})
  {
  }

  /** Only `'small'`, `'large'` and `'xlarge'` change the font size from
      the medium one; any other size, missing or unknown, renders as medium. */
  lemma FontSizeFallbackIsMedium(fontSize: Option<string>)
    ensures GetFontSizeClass(fontSize) == FontSizeClasses["medium"] <==>
      !(fontSize.Some? && fontSize.value in {"small", "large", "xlarge"})
  {
  }

  /** Only `'center'` and `'right'` change the alignment from the left one. */
  lemma TextAlignFallbackIsLeft(textAlign: Option<string>)
    ensures GetTextAlignClass(textAlign) == TextAlignClasses["left"] <==>
      !(textAlign.Some? && textAlign.value in {"center", "right"})
  {
  }
}
